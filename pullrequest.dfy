/** The pull-request aggregate and its projection (main.go lines 25-81 and
    255-261). `Step` and `Fold` are the pure transition function and left fold
    that specify the class `GithubPullRequest`, whose methods update the
    `Status` and `Issues` fields in place as the program's `*GithubPullRequest`
    methods do. */
module PullRequests {
  import opened Wrappers
  import opened Events

  /** The value of a pull-request aggregate: its status ("" before any
      status event, then "open" or "merged") and its linked issue ids. */
  datatype PullRequestState = PullRequestState(status: string, issues: seq<string>)

  /** The zero value the projection starts from. */
  const Zero := PullRequestState("", [])

  predicate NoDuplicates(s: seq<string>) {
    forall i, j | 0 <= i < j < |s| :: s[i] != s[j]
  }

  /** slices.Index: the first position of `x` in `s`, or -1. */
  function IndexOf(s: seq<string>, x: string): (idx: int)
    ensures -1 <= idx < |s|
    ensures idx == -1 <==> x !in s
    ensures 0 <= idx ==> s[idx] == x && x !in s[..idx]
  {
    if s == [] then -1
    else if s[0] == x then 0
    else
      var k := IndexOf(s[1..], x);
      if k == -1 then -1 else k + 1
  }

  /** addIssueRef on values: `id` is appended unless already present. */
  function AddedIssueRef(issues: seq<string>, id: string): (r: seq<string>)
    ensures id in r
    ensures forall x :: x in r <==> x in issues || x == id
    ensures issues <= r && |r| <= |issues| + 1
    ensures id in issues ==> r == issues
    ensures NoDuplicates(issues) ==> NoDuplicates(r)
  {
    if id in issues then issues else issues + [id]
  }

  /** removeIssueRef on values, as the program writes it: the ids before the
      first occurrence of `id` are joined with the ids FROM that occurrence
      on, which rebuilds the same sequence, so nothing is removed. */
  function RemovedIssueRef(issues: seq<string>, id: string): (r: seq<string>)
    ensures r == issues
  {
    var idx := IndexOf(issues, id);
    if idx == -1 then issues else issues[..idx] + issues[idx..]
  }

  /** The event types Apply has a case for. */
  predicate IsPullRequestEventType(t: EventType) {
    || t == GithubEventTypePullRequestOpened
    || t == GithubEventTypePullRequestMerged
    || t == GithubEventTypePullRequestIssueLinked
    || t == GithubEventTypePullRequestIssueUnLinked
  }

  /** An event Apply accepts: a status event with any payload, or a link or
      unlink event carrying an issue id. */
  predicate Applicable(e: AggregateEvent) {
    || e.eventType == GithubEventTypePullRequestOpened
    || e.eventType == GithubEventTypePullRequestMerged
    || ((e.eventType == GithubEventTypePullRequestIssueLinked
         || e.eventType == GithubEventTypePullRequestIssueUnLinked)
        && e.payload.GithubPullRequestIssueLinkedPayload?)
  }

  /** GithubPullRequest.Apply on values: the transition for one event. */
  function Step(st: PullRequestState, e: AggregateEvent): (r: Result<PullRequestState, ApplyError>)
    ensures r.Err? <==> !Applicable(e)
    ensures r.Err? ==> r.error.eventType == e.eventType
    ensures r.Err? ==> (r.error.MalformedEvent? <==> IsPullRequestEventType(e.eventType))
    ensures r.Ok? && NoDuplicates(st.issues) ==> NoDuplicates(r.value.issues)
    ensures r.Ok? ==> st.issues <= r.value.issues
  {
    if e.eventType == GithubEventTypePullRequestOpened then
      Ok(st.(status := "open"))
    else if e.eventType == GithubEventTypePullRequestMerged then
      Ok(st.(status := "merged"))
    else if e.eventType == GithubEventTypePullRequestIssueLinked then
      match e.payload
      case GithubPullRequestIssueLinkedPayload(id) => Ok(st.(issues := AddedIssueRef(st.issues, id)))
      case DefaultPayload => Err(MalformedEvent(e.eventType))
    else if e.eventType == GithubEventTypePullRequestIssueUnLinked then
      match e.payload
      case GithubPullRequestIssueLinkedPayload(id) => Ok(st.(issues := RemovedIssueRef(st.issues, id)))
      case DefaultPayload => Err(MalformedEvent(e.eventType))
    else
      Err(UnsupportedEventType(e.eventType))
  }

  /** GithubPullRequest.Project on values: `Step` folded over the stream from
      left to right, in the stream's own order, stopping at the first event
      that cannot be applied. Whether it fails depends only on the events,
      never on the state; linked ids are never dropped. */
  function Fold(st: PullRequestState, s: EventStream): (r: Result<PullRequestState, ApplyError>)
    ensures r.Ok? <==> forall e | e in s :: Applicable(e)
    ensures r.Ok? && NoDuplicates(st.issues) ==> NoDuplicates(r.value.issues)
    ensures r.Ok? ==> st.issues <= r.value.issues
    decreases |s|
  {
    if s == [] then Ok(st)
    else
      match Step(st, s[0])
      case Err(x) => Err(x)
      case Ok(next) => Fold(next, s[1..])
  }

  /** Folding a concatenation folds the second part from where the first
      part left off. */
  lemma {:induction false} FoldConcat(st: PullRequestState, a: EventStream, b: EventStream)
    ensures Fold(st, a + b) == match Fold(st, a)
                               case Ok(mid) => Fold(mid, b)
                               case Err(x) => Err(x)
    decreases |a|
  {
    if a == [] {
      assert a + b == b;
    } else {
      assert (a + b)[0] == a[0];
      assert (a + b)[1..] == a[1..] + b;
      match Step(st, a[0])
      case Err(x) =>
      case Ok(next) => FoldConcat(next, a[1..], b);
    }
  }

  /** Folding a prefix and then one more event. */
  lemma FoldSnoc(st: PullRequestState, s: EventStream, i: nat, cur: PullRequestState)
    requires i < |s|
    requires Fold(st, s[..i]) == Ok(cur)
    requires Step(cur, s[i]).Ok?
    ensures Fold(st, s[..i + 1]) == Step(cur, s[i])
  {
    var pre, one := s[..i], [s[i]];
    assert pre + one == s[..i + 1];
    FoldConcat(st, pre, one);
    assert one[1..] == [];
    assert Fold(cur, one) == Fold(Step(cur, s[i]).value, []);
  }

  /** Folding a prefix and then the rest of the stream. */
  lemma FoldPrefix(st: PullRequestState, s: EventStream, i: nat, cur: PullRequestState)
    requires i < |s|
    requires Fold(st, s[..i]) == Ok(cur)
    ensures Fold(st, s) == Fold(cur, s[i..])
  {
    var pre, rest := s[..i], s[i..];
    assert pre + rest == s;
    FoldConcat(st, pre, rest);
  }

  /** One step of the fold over a stream: from the projection of the first
      `i` events, applying event `i` either extends the projection by one
      event or fails the projection of the whole stream. */
  lemma FoldStep(st: PullRequestState, s: EventStream, i: nat, cur: PullRequestState)
    requires i < |s|
    requires Fold(st, s[..i]) == Ok(cur)
    ensures Step(cur, s[i]).Ok? ==> Fold(st, s[..i + 1]) == Step(cur, s[i])
    ensures Step(cur, s[i]).Err? ==> Fold(st, s) == Step(cur, s[i])
  {
    if Step(cur, s[i]).Ok? {
      FoldSnoc(st, s, i, cur);
    } else {
      FoldPrefix(st, s, i, cur);
      assert s[i..][0] == s[i];
    }
  }

  /** Linking the same issue twice leaves it present exactly once. */
  lemma {:induction false} LinkTwiceKeepsOneRef(st: PullRequestState, e: AggregateEvent)
    requires NoDuplicates(st.issues)
    requires e.eventType == GithubEventTypePullRequestIssueLinked
    requires e.payload.GithubPullRequestIssueLinkedPayload?
    ensures Fold(st, [e, e]).Ok?
    ensures var issues := Fold(st, [e, e]).value.issues;
            multiset(issues)[e.payload.IssueId] == 1
  {
    var id := e.payload.IssueId;
    var once := AddedIssueRef(st.issues, id);
    assert Step(st, e) == Ok(st.(issues := once));
    assert [e, e][1..] == [e];
    assert Fold(st, [e, e]) == Fold(st.(issues := once), [e]);
    assert Fold(st, [e, e]).value.issues == once;
    var k := IndexOf(once, id);
    assert once == once[..k] + [id] + once[k + 1..];
    assert multiset(once) == multiset(once[..k]) + multiset{id} + multiset(once[k + 1..]);
  }

  /** The aggregate of the program: `Status` and `Issues` are updated in
      place by the methods below. */
  class GithubPullRequest {
    var Status: string
    var Issues: seq<string>

    /** The zero value `&GithubPullRequest{}` that buildPullRequest starts from. */
    constructor ()
      ensures State() == Zero
    {
      Status := "";
      Issues := [];
    }

    function State(): PullRequestState
      reads this
    {
      PullRequestState(Status, Issues)
    }

    /** addIssueRef: append `id` unless it is already linked. */
    method AddIssueRef(id: string)
      modifies this
      ensures Status == old(Status)
      ensures old(id in Issues) ==> Issues == old(Issues)
      ensures old(id !in Issues) ==> Issues == old(Issues) + [id]
      ensures Issues == AddedIssueRef(old(Issues), id)
    {
      if id in Issues {
        return;
      }
      Issues := Issues + [id];
    }

    /** removeIssueRef as written: whether or not `id` is linked, the
        splice leaves `Issues` as it was. */
    method RemoveIssueRef(id: string)
      modifies this
      ensures Status == old(Status)
      ensures Issues == old(Issues)
    {
      var idx := IndexOf(Issues, id);
      if idx == -1 {
        return;
      }
      var first := Issues[..idx];
      var second := Issues[idx..];
      Issues := first + second;
    }

    /** Apply: the transition for one event. Where the program panics, the
        model returns the error and leaves the aggregate untouched. */
    method Apply(e: AggregateEvent) returns (outcome: Outcome<ApplyError>)
      modifies this
      ensures outcome.Pass? ==> Step(old(State()), e) == Ok(State())
      ensures outcome.Fail? ==> Step(old(State()), e) == Err(outcome.error) && State() == old(State())
      ensures e.eventType == GithubEventTypePullRequestOpened ==>
                outcome.Pass? && Status == "open" && Issues == old(Issues)
      ensures e.eventType == GithubEventTypePullRequestMerged ==>
                outcome.Pass? && Status == "merged" && Issues == old(Issues)
      ensures e.eventType == GithubEventTypePullRequestIssueLinked ==>
                Status == old(Status)
                && match e.payload
                   case GithubPullRequestIssueLinkedPayload(id) =>
                     outcome.Pass? && Issues == AddedIssueRef(old(Issues), id)
                   case DefaultPayload =>
                     outcome == Fail(MalformedEvent(e.eventType)) && Issues == old(Issues)
      ensures e.eventType == GithubEventTypePullRequestIssueUnLinked ==>
                Status == old(Status) && Issues == old(Issues)
                && (outcome.Pass? <==> e.payload.GithubPullRequestIssueLinkedPayload?)
      ensures !IsPullRequestEventType(e.eventType) ==>
                outcome == Fail(UnsupportedEventType(e.eventType)) && State() == old(State())
    {
      if e.eventType == GithubEventTypePullRequestOpened {
        Status := "open";
        outcome := Pass;
      } else if e.eventType == GithubEventTypePullRequestMerged {
        Status := "merged";
        outcome := Pass;
      } else if e.eventType == GithubEventTypePullRequestIssueLinked {
        match e.payload
        case GithubPullRequestIssueLinkedPayload(id) =>
          AddIssueRef(id);
          outcome := Pass;
        case DefaultPayload =>
          outcome := Fail(MalformedEvent(e.eventType));
      } else if e.eventType == GithubEventTypePullRequestIssueUnLinked {
        match e.payload
        case GithubPullRequestIssueLinkedPayload(id) =>
          RemoveIssueRef(id);
          outcome := Pass;
        case DefaultPayload =>
          outcome := Fail(MalformedEvent(e.eventType));
      } else {
        outcome := Fail(UnsupportedEventType(e.eventType));
      }
    }

    /** Project: Apply each event of `s` in order. The first event that
        cannot be applied stops the projection; the aggregate is then the
        projection of the events before it. */
    method Project(s: EventStream) returns (outcome: Outcome<ApplyError>)
      modifies this
      ensures outcome.Pass? <==> Fold(old(State()), s).Ok?
      ensures outcome.Pass? ==> Fold(old(State()), s) == Ok(State())
      ensures outcome.Fail? ==>
                && Fold(old(State()), s) == Err(outcome.error)
                && exists k | 0 <= k < |s| ::
                     Fold(old(State()), s[..k]) == Ok(State()) && Step(State(), s[k]) == Err(outcome.error)
    {
      var i := 0;
      while i < |s|
        invariant 0 <= i <= |s|
        invariant Fold(old(State()), s[..i]) == Ok(State())
      {
        ghost var before := State();
        var o := Apply(s[i]);
        FoldStep(old(State()), s, i, before);
        if o.Fail? {
          return o;
        }
        i := i + 1;
      }
      assert s[..|s|] == s;
      outcome := Pass;
    }
  }

  /** buildPullRequest: project `s` onto a fresh zero-valued aggregate. A
      stream that cannot be projected yields the error and no aggregate. */
  method BuildPullRequest(s: EventStream) returns (r: Result<GithubPullRequest, ApplyError>)
    ensures r.Ok? ==> fresh(r.value) && Fold(Zero, s) == Ok(r.value.State())
    ensures r.Err? ==> Fold(Zero, s) == Err(r.error)
  {
    var pr := new GithubPullRequest();
    var outcome := pr.Project(s);
    if outcome.Fail? {
      return Err(outcome.error);
    }
    return Ok(pr);
  }
}
