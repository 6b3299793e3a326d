/** Cross-stream correlation (main.go lines 238-253 and 273-297): extract the
    issue ids that a pull request's events carry, and merge the pull
    request's events with the related issue-tracker events into one
    chronological timeline. */
module Correlation {
  import opened Wrappers
  import opened Events
  import opened EventStreams
  import opened PullRequests

  /** Selects the events whose payload carries an issue id, whatever their type. */
  const CarriesIssueLink := (e: AggregateEvent) => e.payload.GithubPullRequestIssueLinkedPayload?

  /** The issue id of every event with an issue-link payload, in stream order,
      duplicates kept. */
  function IssueRefs(s: EventStream): seq<string> {
    if s == [] then []
    else
      IssueRefs(s[..|s| - 1]) + match s[|s| - 1].payload
                                 case GithubPullRequestIssueLinkedPayload(id) => [id]
                                 case DefaultPayload => []
  }

  /** extractJiraReferences: collects the issue id of every event whose
      payload is the issue-link variant; other events are skipped. */
  method ExtractJiraReferences(s: EventStream) returns (refs: seq<string>)
    ensures refs == IssueRefs(s)
  {
    refs := [];
    for i := 0 to |s|
      invariant refs == IssueRefs(s[..i])
    {
      assert s[..i + 1][..i] == s[..i];
      match s[i].payload
      case GithubPullRequestIssueLinkedPayload(id) =>
        refs := refs + [id];
      case DefaultPayload =>
    }
    assert s[..|s|] == s;
  }

  /** The references are the ids of the issue-link events, one per event and in
      the same order: link and unlink events alike, and repeats kept. */
  lemma {:induction false} IssueRefsOfLinkEvents(s: EventStream)
    ensures |IssueRefs(s)| == |Filter(s, CarriesIssueLink)|
    ensures forall k | 0 <= k < |IssueRefs(s)| ::
              var e := Filter(s, CarriesIssueLink)[k];
              e.payload.GithubPullRequestIssueLinkedPayload? && IssueRefs(s)[k] == e.payload.IssueId
  {
    if s != [] {
      IssueRefsOfLinkEvents(s[..|s| - 1]);
    }
  }

  lemma {:induction false} IssueRefsConcat(a: EventStream, b: EventStream)
    ensures IssueRefs(a + b) == IssueRefs(a) + IssueRefs(b)
  {
    if b == [] {
      assert a + b == a;
    } else {
      assert (a + b)[..|a + b| - 1] == a + b[..|b| - 1];
      IssueRefsConcat(a, b[..|b| - 1]);
    }
  }

  /** Because unlinking removes nothing, the issues a projection links to are
      exactly those it started with and those referenced by its link events. */
  lemma {:induction false} ProjectedIssuesAreLinkedRefs(st: PullRequestState, s: EventStream)
    requires Fold(st, s).Ok?
    ensures forall x :: x in Fold(st, s).value.issues <==>
              x in st.issues || x in IssueRefs(Filter(s, HasType(GithubEventTypePullRequestIssueLinked)))
    decreases |s|
  {
    if s != [] {
      var linked := HasType(GithubEventTypePullRequestIssueLinked);
      var e, rest := s[0], s[1..];
      var next := Step(st, e).value;
      assert Fold(st, s) == Fold(next, rest);
      ProjectedIssuesAreLinkedRefs(next, rest);
      assert [e] + rest == s;
      FilterConcat([e], rest, linked);
      IssueRefsConcat(Filter([e], linked), Filter(rest, linked));
      assert [e][..0] == [];
      if linked(e) {
        assert Filter([e], linked) == [e];
        assert IssueRefs([e]) == [e.payload.IssueId];
        assert forall x :: x in next.issues <==> x in st.issues || x == e.payload.IssueId;
      } else {
        assert Filter([e], linked) == [];
        assert next.issues == st.issues;
      }
    }
  }

  /** Non-decreasing in `occurredAt`. */
  predicate Chronological(s: EventStream) {
    forall i, j | 0 <= i < j < |s| :: s[i].occurredAt <= s[j].occurredAt
  }

  /** `t` is `events` put in chronological order. Events with equal instants
      may come in any order. */
  ghost predicate IsTimelineOf(t: EventStream, events: EventStream) {
    multiset(t) == multiset(events) && Chronological(t)
  }

  /** Exchanges the adjacent events at `j - 1` and `j`. */
  method SwapAdjacent(a: array<AggregateEvent>, j: int)
    requires 0 < j < a.Length
    modifies a
    ensures a[..] == old(a[..])[j - 1 := old(a[j])][j := old(a[j - 1])]
    ensures multiset(a[..]) == multiset(old(a[..]))
  {
    a[j - 1], a[j] := a[j], a[j - 1];
  }

  /** Moves the event at `i` left past every later instant, so that the
      first `i + 1` events become chronological; the rest is untouched. */
  method InsertAt(a: array<AggregateEvent>, i: int)
    requires 0 <= i < a.Length
    requires Chronological(a[..i])
    modifies a
    ensures Chronological(a[..i + 1])
    ensures multiset(a[..]) == multiset(old(a[..]))
    ensures a[i + 1..] == old(a[i + 1..])
  {
    var j := i;
    while j > 0 && a[j - 1].occurredAt > a[j].occurredAt
      invariant 0 <= j <= i
      invariant multiset(a[..]) == multiset(old(a[..]))
      invariant a[i + 1..] == old(a[i + 1..])
      invariant forall p, q | 0 <= p < q <= i && p != j && q != j :: a[p].occurredAt <= a[q].occurredAt
      invariant forall q | j < q <= i :: a[j].occurredAt < a[q].occurredAt
    {
      ghost var before := a[..];
      SwapAdjacent(a, j);
      assert a[j - 1] == before[j] && a[j] == before[j - 1];
      assert forall k | 0 <= k < a.Length && k != j - 1 && k != j :: a[k] == before[k];
      j := j - 1;
    }
    assert j > 0 ==> a[j - 1].occurredAt <= a[j].occurredAt;
  }

  /** slices.SortFunc by `occurredAt`, in place. The library's algorithm is
      not part of this model: this insertion sort meets the same contract,
      which promises nothing about the order of equal instants. */
  method SortByOccurredAt(a: array<AggregateEvent>)
    modifies a
    ensures IsTimelineOf(a[..], old(a[..]))
  {
    var i := 0;
    while i < a.Length
      invariant 0 <= i <= a.Length
      invariant Chronological(a[..i])
      invariant multiset(a[..]) == multiset(old(a[..]))
    {
      InsertAt(a, i);
      i := i + 1;
    }
    assert a[..a.Length] == a[..];
  }

  /** What the program prints: the projected pull request, and the merged
      timeline. */
  datatype CorrelationResult = CorrelationResult(pullRequest: PullRequestState, timeline: EventStream)

  /** The correlation of the pull request `prId` of `github` with `jira`: the
      pull request's events are projected from the zero value; its linked
      issues select the related `jira` events; both sets of events, in
      chronological order, make the timeline. A pull-request event that
      cannot be applied is the result instead. */
  ghost predicate CorrelationOf(github: EventStream, prId: string, jira: EventStream,
                                r: Result<CorrelationResult, ApplyError>)
  {
    var forPR := Filter(github, HasAggregateId(prId));
    match Fold(Zero, forPR)
    case Err(x) => r == Err(x)
    case Ok(pr) =>
      var related := Filter(jira, HasAggregateIdIn(pr.issues));
      && r.Ok?
      && r.value.pullRequest == pr
      && |r.value.timeline| == |forPR| + |related|
      && IsTimelineOf(r.value.timeline, forPR + related)
  }

  /** The merge at the end of main: append the pull request's events, then
      the related events, and sort the result by `occurredAt`. */
  method MergeTimeline(forPR: EventStream, related: EventStream) returns (timeline: EventStream)
    ensures |timeline| == |forPR| + |related|
    ensures IsTimelineOf(timeline, forPR + related)
  {
    var allEvents: EventStream := [];
    for i := 0 to |forPR|
      invariant allEvents == forPR[..i]
    {
      allEvents := allEvents + [forPR[i]];
    }
    for i := 0 to |related|
      invariant allEvents == forPR + related[..i]
    {
      allEvents := allEvents + [related[i]];
    }
    assert related[..|related|] == related;

    var buffer := new AggregateEvent[|allEvents|](k requires 0 <= k < |allEvents| => allEvents[k]);
    assert buffer[..] == allEvents;
    SortByOccurredAt(buffer);
    timeline := buffer[..];
    assert |timeline| == |multiset(timeline)| == |allEvents|;
  }

  /** The body of main between reading the argument and printing: filter,
      project, select the related events, and merge. */
  method Correlate(github: EventStream, prId: string, jira: EventStream)
    returns (r: Result<CorrelationResult, ApplyError>)
    ensures CorrelationOf(github, prId, jira, r)
  {
    var forPR := FindByAggregateId(github, prId);
    var built := BuildPullRequest(forPR);
    if built.Err? {
      return Err(built.error);
    }
    var pr := built.value;
    var related := FindByAggregateIds(jira, pr.Issues);
    var timeline := MergeTimeline(forPR, related);
    r := Ok(CorrelationResult(pr.State(), timeline));
  }

  /** Two chronological orders of the same events, with pairwise distinct
      instants, start with the same event: the earliest one. */
  lemma HeadsAgree(a: EventStream, b: EventStream)
    requires a != [] && IsTimelineOf(a, b) && Chronological(b)
    requires forall i, j | 0 <= i < j < |b| :: b[i].occurredAt != b[j].occurredAt
    ensures |a| == |b| && a[0] == b[0]
  {
    assert |a| == |multiset(a)| == |b|;
    assert a[0] in multiset(b);
    assert b[0] in multiset(a);
    var k :| 0 <= k < |b| && b[k] == a[0];
    var m :| 0 <= m < |a| && a[m] == b[0];
    assert a[0].occurredAt <= a[m].occurredAt;
    assert b[0].occurredAt <= b[k].occurredAt;
    assert k == 0;
  }

  /** With pairwise distinct instants the chronological order is unique: the
      sort's freedom over ties is then no freedom at all. */
  lemma {:induction false} ChronologicalOrderIsUnique(a: EventStream, b: EventStream)
    requires IsTimelineOf(a, b) && Chronological(b)
    requires forall i, j | 0 <= i < j < |b| :: b[i].occurredAt != b[j].occurredAt
    ensures a == b
  {
    if a != [] {
      HeadsAgree(a, b);
      var a', b' := a[1..], b[1..];
      assert a == [a[0]] + a';
      assert b == [b[0]] + b';
      assert multiset(a') == multiset(b') by {
        calc {
          multiset(a');
          multiset(a) - multiset{a[0]};
          multiset(b) - multiset{b[0]};
          multiset(b');
        }
      }
      assert Chronological(a') by {
        forall i, j | 0 <= i < j < |a'|
          ensures a'[i].occurredAt <= a'[j].occurredAt
        {
          assert a'[i] == a[i + 1] && a'[j] == a[j + 1];
        }
      }
      assert Chronological(b') && forall i, j | 0 <= i < j < |b'| :: b'[i].occurredAt != b'[j].occurredAt by {
        forall i, j | 0 <= i < j < |b'|
          ensures b'[i].occurredAt <= b'[j].occurredAt && b'[i].occurredAt != b'[j].occurredAt
        {
          assert b'[i] == b[i + 1] && b'[j] == b[j + 1];
        }
      }
      ChronologicalOrderIsUnique(a', b');
    }
  }
}
