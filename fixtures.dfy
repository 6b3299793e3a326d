/** The two in-memory streams the program correlates (main.go lines 178-236)
    and the behaviour of the engine on them. Instants are seconds after the
    program's fixed start time, 2025-01-01T00:00:00Z. */
module Fixtures {
  import opened Wrappers
  import opened Events
  import opened EventStreams
  import opened PullRequests
  import opened Correlation

  const Hour := 3600

  const Opened := AggregateEvent("1234", GithubEventTypePullRequestOpened, 12 * Hour, DefaultPayload)
  const Linked := AggregateEvent("1234", GithubEventTypePullRequestIssueLinked, 24 * Hour,
                                 GithubPullRequestIssueLinkedPayload("TEST-123"))
  const Merged := AggregateEvent("1234", GithubEventTypePullRequestMerged, 36 * Hour, DefaultPayload)

  const Created := AggregateEvent("TEST-123", JiraEventTypeIssueCreated, 18 * Hour, DefaultPayload)
  const Changed1 := AggregateEvent("TEST-123", JiraEventTypeIssueStatusChanged, 19 * Hour, DefaultPayload)
  const Changed2 := AggregateEvent("TEST-123", JiraEventTypeIssueStatusChanged, 20 * Hour, DefaultPayload)
  const Changed3 := AggregateEvent("TEST-123", JiraEventTypeIssueStatusChanged, 30 * Hour, DefaultPayload)
  const Closed := AggregateEvent("TEST-123", JiraEventTypeIssueClosed, 48 * Hour, DefaultPayload)

  /** getGithubEventStream */
  function GithubEventStream(): EventStream {
    [Opened, Linked, Merged]
  }

  /** getJiraEventStream */
  function JiraEventStream(): EventStream {
    [Created, Changed1, Changed2, Changed3, Closed]
  }

  /** The pull request "1234" projects to a merged pull request linked to
      "TEST-123". */
  lemma ProjectionScenario()
    ensures Filter(GithubEventStream(), HasAggregateId("1234")) == GithubEventStream()
    ensures Fold(Zero, GithubEventStream()) == Ok(PullRequestState("merged", ["TEST-123"]))
  {
    var s := GithubEventStream();
    assert s[0].aggregateId == "1234" && s[1].aggregateId == "1234" && s[2].aggregateId == "1234";
    FilterKeepsAll(s, HasAggregateId("1234"));
    var isOpen := PullRequestState("open", []);
    var linked := PullRequestState("open", ["TEST-123"]);
    var merged := PullRequestState("merged", ["TEST-123"]);
    assert s[1..] == [Linked, Merged] && s[1..][1..] == [Merged] && [Merged][1..] == [];
    assert Step(Zero, Opened) == Ok(isOpen);
    assert AddedIssueRef([], "TEST-123") == ["TEST-123"];
    assert Step(isOpen, Linked) == Ok(linked);
    assert Step(linked, Merged) == Ok(merged);
    assert Fold(merged, []) == Ok(merged);
    assert Fold(linked, [Merged]) == Ok(merged);
    assert Fold(isOpen, [Linked, Merged]) == Ok(merged);
  }

  /** The eight events of the timeline, in chronological order. */
  function ExpectedTimeline(): EventStream {
    [Opened, Created, Changed1, Changed2, Linked, Changed3, Merged, Closed]
  }

  /** Moving blocks of a sequence around keeps its multiset. */
  lemma Interleave<T>(p: seq<T>, q: seq<T>, r: seq<T>, s: seq<T>, u: seq<T>, v: seq<T>)
    ensures multiset(p + q + r + s + u + v) == multiset(p + s + q + u + r + v)
  {
  }

  lemma ExpectedTimelineIsPermutation()
    ensures multiset(ExpectedTimeline()) == multiset(GithubEventStream() + JiraEventStream())
  {
    var p, q, r, s, u, v := [Opened], [Linked], [Merged], [Created, Changed1, Changed2], [Changed3], [Closed];
    Interleave(p, q, r, s, u, v);
    assert GithubEventStream() + JiraEventStream() == p + q + r + s + u + v;
    assert ExpectedTimeline() == p + s + q + u + r + v;
  }

  lemma ExpectedTimelineIsStrictlyAscending()
    ensures forall i, j | 0 <= i < j < |ExpectedTimeline()| ::
              ExpectedTimeline()[i].occurredAt < ExpectedTimeline()[j].occurredAt
  {
    var t := ExpectedTimeline();
    assert forall i | 0 <= i < |t| - 1 :: t[i].occurredAt < t[i + 1].occurredAt;
    forall i, j | 0 <= i < j < |t|
      ensures t[i].occurredAt < t[j].occurredAt
    {
      var k := i;
      while k < j
        invariant i <= k <= j
        invariant t[i].occurredAt <= t[k].occurredAt
        invariant k > i ==> t[i].occurredAt < t[k].occurredAt
      {
        k := k + 1;
      }
    }
  }

  /** The pull request "1234" links to "TEST-123", whose five events all
      relate to it. */
  lemma RelatedScenario()
    ensures Filter(JiraEventStream(), HasAggregateIdIn(["TEST-123"])) == JiraEventStream()
  {
    FilterKeepsAll(JiraEventStream(), HasAggregateIdIn(["TEST-123"]));
  }

  /** Correlating "1234": by ProjectionScenario and RelatedScenario, the
      timeline is a chronological order of the three events of "1234"
      followed by the five events of "TEST-123". That order is unique: eight
      events, strictly ascending in time, from the opening of the pull
      request to the closing of the issue. */
  lemma CorrelationScenario(t: EventStream)
    requires IsTimelineOf(t, GithubEventStream() + JiraEventStream())
    ensures t == ExpectedTimeline()
    ensures |t| == 8
    ensures forall i, j | 0 <= i < j < |t| :: t[i].occurredAt < t[j].occurredAt
    ensures t[0] == Opened && t[7] == Closed
  {
    ExpectedTimelineIsPermutation();
    ExpectedTimelineIsStrictlyAscending();
    ChronologicalOrderIsUnique(t, ExpectedTimeline());
  }

  /** Correlating "1234" with the fixtures: the merged pull request linked
      to "TEST-123", and the eight events in the expected order. */
  lemma FullCorrelationScenario(r: Result<CorrelationResult, ApplyError>)
    requires CorrelationOf(GithubEventStream(), "1234", JiraEventStream(), r)
    ensures r.Ok?
    ensures r.value.pullRequest == PullRequestState("merged", ["TEST-123"])
    ensures r.value.timeline == ExpectedTimeline()
  {
    ProjectionScenario();
    RelatedScenario();
    CorrelationScenario(r.value.timeline);
  }

  /** An id with no events gives the zero pull request and an empty timeline,
      not an error. */
  lemma NoMatchScenario(r: Result<CorrelationResult, ApplyError>)
    requires CorrelationOf(GithubEventStream(), "does-not-exist", JiraEventStream(), r)
    ensures r == Ok(CorrelationResult(Zero, []))
  {
    FilterKeepsNone(GithubEventStream(), HasAggregateId("does-not-exist"));
    FilterKeepsNone(JiraEventStream(), HasAggregateIdIn([]));
    assert |r.value.timeline| == 0;
  }

  /** A link event carrying the marker payload aborts the correlation. */
  lemma MalformedScenario(r: Result<CorrelationResult, ApplyError>)
    requires CorrelationOf([Linked.(payload := DefaultPayload)], "1234", JiraEventStream(), r)
    ensures r == Err(MalformedEvent(GithubEventTypePullRequestIssueLinked))
  {
    FilterKeepsAll([Linked.(payload := DefaultPayload)], HasAggregateId("1234"));
  }

  /** Status is not forward-only: an "opened" event after "merged" reopens
      the pull request. */
  lemma StatusCanRegress()
    ensures Fold(Zero, [Merged, Opened]) == Ok(PullRequestState("open", []))
  {
    var merged := PullRequestState("merged", []);
    var reopened := PullRequestState("open", []);
    assert Step(Zero, Merged) == Ok(merged);
    assert Step(merged, Opened) == Ok(reopened);
    assert Fold(reopened, []) == Ok(reopened);
    assert Fold(merged, [Opened]) == Ok(reopened);
  }

  /** Unlinking leaves a linked issue in place. */
  lemma UnlinkKeepsIssue()
    ensures Fold(Zero, [Linked, Linked.(eventType := GithubEventTypePullRequestIssueUnLinked)])
            == Ok(PullRequestState("", ["TEST-123"]))
  {
    var unlinked := Linked.(eventType := GithubEventTypePullRequestIssueUnLinked);
    var linked := PullRequestState("", ["TEST-123"]);
    assert AddedIssueRef([], "TEST-123") == ["TEST-123"];
    assert Step(Zero, Linked) == Ok(linked);
    assert Step(linked, unlinked) == Ok(linked);
    assert Fold(linked, []) == Ok(linked);
    assert Fold(linked, [unlinked]) == Ok(linked);
  }
}
