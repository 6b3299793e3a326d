# Event stream convergence, modelled in Dafny

This project models the event-sourcing projection and cross-stream
correlation engine of `hack/event_stream_convergence/main.go`.

- **Event model** (`events.dfy`, module `Events`). An event carries an aggregate id, an event type, an
  instant and a payload. The payload is a closed union of two variants:
  the `DefaultPayload` marker, and `GithubPullRequestIssueLinkedPayload`,
  which carries an issue id. Instants are integers, because the program only
  compares them.
- **EventStream queries** (`streams.dfy`, module `EventStreams`). `AggregateIds`, `FindByType`,
  `FindByAggregateId` and `FindByAggregateIds` are loops that append into a
  fresh sequence, as in the program. The three `Find…` loops are proved
  against `Filter`, an order-preserving selection whose properties are
  lemmas. `AggregateIds` is proved entry by entry: entry i is the id of
  event i.
- **Aggregate projection** (`pullrequest.dfy`, module `PullRequests`). The class `GithubPullRequest`
  has the program's `Status` and `Issues` fields and the methods
  `AddIssueRef`, `RemoveIssueRef`, `Apply` and `Project`, which update those
  fields in place. They are specified by the pure transition `Step` and its
  left fold `Fold`. `BuildPullRequest` projects onto a fresh zero value.
  Where the program panics (an unsupported event type, or a link or unlink
  event whose payload is the marker), the model returns an `ApplyError`.
- **Correlation** (`correlation.dfy`, module `Correlation`). `ExtractJiraReferences` collects the
  issue ids carried by payloads. `Correlate` is the body of `main` without
  the argument handling and the printing. It filters the primary stream by
  pull-request id, projects it, selects the secondary events of the linked
  issues, concatenates both, and sorts the result in place by instant.
- **Fixtures** (`fixtures.dfy`, module `Fixtures`). The program's two in-memory streams, and what the
  engine does with them.

`wrappers.dfy` holds the `Result` and `Outcome` datatypes.

## Where the code differs from what one would expect

The model follows the code in each case.

- **Unlinking.** One would expect an unlink event to remove the issue. The
  splice in `removeIssueRef` (main.go lines 44-49) joins `Issues[0:idx]`
  with `Issues[idx:]`, which rebuilds the same sequence, so an unlink never
  removes anything. The model keeps this behaviour (`RemovedIssueRef`,
  `UnlinkKeepsIssue`, `ProjectedIssuesAreLinkedRefs`).
- **Status.** One would expect status to move only forward, from unknown to
  open to merged. `Apply` (main.go lines 60-63) sets it from whichever
  status event comes last, so "opened" after "merged" reopens the pull
  request (`StatusCanRegress`).
- **Sorting.** One would expect events with equal instants to keep their
  concatenation order. The program calls `slices.SortFunc` (main.go lines
  295-297), which is not stable. The model promises only a chronological
  permutation. When all instants differ, that order is unique
  (`ChronologicalOrderIsUnique`).
- **Failed projection.** `Project` (main.go lines 52-56) leaves the
  aggregate partly updated when an event panics, but the panic also unwinds
  `buildPullRequest`, so the aggregate never reaches the caller. The model's
  `Project` reports the error and leaves the projection of the events before
  the failing one. `BuildPullRequest` then returns the error and no
  aggregate.

## Model

| member | source | states |
|---|---|---|
| `EventStreams.Filter` | hack/event_stream_convergence/main.go:142-176 | an event is in the selection exactly when it is in the stream and meets the criterion; the selection is no longer than the stream |
| `EventStreams.FilterIsOrderedSelection` | hack/event_stream_convergence/main.go:142-176 | the k-th selected event is the stream's event at the k-th matching position; positions strictly increase and include every matching index, so the selection is an order-preserving subsequence |
| `EventStreams.FilterIdempotent` | hack/event_stream_convergence/main.go:153-162 | selecting again by the same criterion returns the selection unchanged |
| `EventStreams.FilterKeepsNone` | hack/event_stream_convergence/main.go:153-162 | when no event matches, the result is the empty stream, not an error |
| `EventStreams.FilterConcat` | hack/event_stream_convergence/main.go:142-176 | selecting from a concatenation concatenates the selections |
| `EventStreams.AggregateIds` | hack/event_stream_convergence/main.go:133-140 | one id per event: entry i is event i's aggregate id, with duplicates kept |
| `EventStreams.FindByType` | hack/event_stream_convergence/main.go:142-151 | the loop returns the order-preserving selection of the events of type t; an event is returned iff it is in the stream and has type t |
| `EventStreams.FindByAggregateId` | hack/event_stream_convergence/main.go:153-162 | the loop returns the order-preserving selection of the events of the given id; iff-membership; an absent id gives the empty stream |
| `EventStreams.FindByAggregateIds` | hack/event_stream_convergence/main.go:164-176 | the loop keeps an event iff its id is a member of ids, in order; no ids give the empty stream |
| `EventStreams.FindByAggregateIdIdempotent` | hack/event_stream_convergence/main.go:153-162 | filtering the output of FindByAggregateId again by the same id gives the same stream |
| `PullRequests.IndexOf` | hack/event_stream_convergence/main.go:39-42 | slices.Index: -1 iff the id is absent; otherwise the position of its first occurrence |
| `PullRequests.AddedIssueRef` | hack/event_stream_convergence/main.go:30-36 | the id ends up linked; the old ids stay, as a prefix; the only possible new id is this one; an id already present changes nothing; no duplicates before means none after |
| `PullRequests.RemovedIssueRef` | hack/event_stream_convergence/main.go:38-50 | the splice as written returns the ids unchanged, whether or not the id is present |
| `PullRequests.Step` | hack/event_stream_convergence/main.go:58-81 | a transition fails iff the event type has no case, or it is link/unlink with the marker payload; the error names the event type and is "malformed" exactly for the four handled types; success keeps linked ids as a prefix and keeps them duplicate-free |
| `PullRequests.Fold` | hack/event_stream_convergence/main.go:52-56 | the left fold succeeds iff every event of the stream is applicable (independent of the state); it preserves no-duplicates, and linked ids are never dropped |
| `PullRequests.FoldConcat` | hack/event_stream_convergence/main.go:52-56 | folding a concatenation is folding the second part from the state the first part reached, or the first part's error |
| `PullRequests.FoldSnoc` | hack/event_stream_convergence/main.go:52-56 | when event i applies to the projection of the first i events, the projection of the first i + 1 events is that step's result |
| `PullRequests.FoldPrefix` | hack/event_stream_convergence/main.go:52-56 | projecting a stream is projecting its first i events and then going on from that state with the rest |
| `PullRequests.FoldStep` | hack/event_stream_convergence/main.go:52-56 | from the projection of the first i events, event i either extends the projection or fails the projection of the whole stream with its error |
| `PullRequests.LinkTwiceKeepsOneRef` | hack/event_stream_convergence/main.go:30-36 | two identical link events on a duplicate-free aggregate leave that issue id present exactly once |
| `PullRequests.GithubPullRequest.constructor` | hack/event_stream_convergence/main.go:255-256 | a new aggregate is the zero value: Status "" and no issues |
| `PullRequests.GithubPullRequest.AddIssueRef` | hack/event_stream_convergence/main.go:30-36 | Status unchanged; an id already present leaves Issues unchanged, otherwise it is appended at the end |
| `PullRequests.GithubPullRequest.RemoveIssueRef` | hack/event_stream_convergence/main.go:38-50 | Status and Issues are both unchanged after the splice |
| `PullRequests.GithubPullRequest.Apply` | hack/event_stream_convergence/main.go:58-81 | opened sets "open" and merged sets "merged", keeping Issues; link adds the id and unlink keeps Issues, both keeping Status and failing on the marker payload; any other type fails as unsupported; a failure leaves the aggregate untouched; the new state is Step of the old |
| `PullRequests.GithubPullRequest.Project` | hack/event_stream_convergence/main.go:52-56 | succeeds iff the fold of the stream from the old state succeeds, and then the aggregate is that fold; on failure the aggregate is the fold of the events before the first failing one |
| `PullRequests.BuildPullRequest` | hack/event_stream_convergence/main.go:255-261 | returns a fresh aggregate equal to the fold of the stream from the zero value, or that fold's error and no aggregate |
| `Correlation.ExtractJiraReferences` | hack/event_stream_convergence/main.go:238-253 | the loop returns the issue references of the stream |
| `Correlation.IssueRefsOfLinkEvents` | hack/event_stream_convergence/main.go:238-253 | the references are the issue ids of the events with a link payload, one per event, in stream order: unlink events count and duplicates are kept |
| `Correlation.IssueRefsConcat` | hack/event_stream_convergence/main.go:238-253 | the references of a concatenation are the concatenated references |
| `Correlation.ProjectedIssuesAreLinkedRefs` | hack/event_stream_convergence/main.go:52-81 | after a successful fold, an id is linked iff it was linked before or some link-type event of the stream carries it; unlinking removes nothing |
| `Correlation.InsertAt` | hack/event_stream_convergence/main.go:295-297 | one insertion step extends the chronological prefix by one event, permuting the array and leaving the rest untouched |
| `Correlation.SortByOccurredAt` | hack/event_stream_convergence/main.go:295-297 | the array ends up chronological and a permutation of its old contents, with no promise about ties |
| `Correlation.MergeTimeline` | hack/event_stream_convergence/main.go:285-297 | the timeline has the summed length and is a chronological permutation of forPR followed by the related events |
| `Correlation.Correlate` | hack/event_stream_convergence/main.go:273-297 | the result is the error of projecting the pull request's events, or that projection with a chronological permutation of its events and the secondary events of its linked issues, of the summed length |
| `Correlation.HeadsAgree` | hack/event_stream_convergence/main.go:295-297 | two chronological orders of the same events with distinct instants have the same length and start with the same event |
| `Correlation.ChronologicalOrderIsUnique` | hack/event_stream_convergence/main.go:295-297 | when all instants differ, any two chronological permutations of the same events are equal |
| `Fixtures.ProjectionScenario` | hack/event_stream_convergence/main.go:178-201 | every fixture event belongs to "1234", and it projects from the zero value to status "merged" with issues ["TEST-123"] |
| `Fixtures.RelatedScenario` | hack/event_stream_convergence/main.go:203-236 | all five issue-tracker fixture events relate to ["TEST-123"] |
| `Fixtures.CorrelationScenario` | hack/event_stream_convergence/main.go:178-236 | any chronological order of the eight fixture events is the expected timeline: strictly ascending, from the opening of the pull request to the closing of the issue |
| `Fixtures.FullCorrelationScenario` | hack/event_stream_convergence/main.go:273-297 | correlating "1234" with the two fixture streams succeeds with status "merged", issues ["TEST-123"] and the eight events in the expected order |
| `Fixtures.NoMatchScenario` | hack/event_stream_convergence/main.go:153-162 | correlating an id with no events gives the zero aggregate and an empty timeline, not an error |
| `Fixtures.MalformedScenario` | hack/event_stream_convergence/main.go:64-68 | a link event carrying the marker payload aborts the correlation with a malformed-event error |
| `Fixtures.StatusCanRegress` | hack/event_stream_convergence/main.go:60-63 | merged followed by opened projects to status "open" |
| `Fixtures.UnlinkKeepsIssue` | hack/event_stream_convergence/main.go:71-77 | link followed by unlink of the same issue leaves it linked |

## Left out

- Argument handling in `main`: the argument count check and its panic are not modelled. `Correlate` takes the pull-request id as a parameter.
- Output: the printing of the aggregate and of the timeline, including the RFC 3339 time formatting, is not modelled.
- `time.Time`: an instant is an integer number of seconds after the fixtures' start time, because only `Compare` is used.
- `slices.SortFunc`: its algorithm is library code. `SortByOccurredAt` is an insertion sort that meets the same contract, a chronological permutation. Neither states an order for ties.
- `slices.Contains`, `slices.ContainsFunc` and `slices.Index`: these library calls are modelled by sequence membership and by `IndexOf`.
- Slice aliasing: `append` in `removeIssueRef` writes into the backing array of `Issues` itself. The model works on sequence values. The contents are the same either way.
- Panics: the model returns them as `ApplyError` values instead of unwinding the stack. The panic messages are not modelled. `ApplyError` names the event's own type, but the message for an unlink event (main.go line 74) names the link type, and the message for an unsupported type (main.go line 79) names no type.
- `GithubPullRequestOpenedEvent` (main.go lines 126-128): this type is declared but never used.
- Go generics: the type parameter of `AggregateEvent[T]` is fixed to the payload union, as `EventStream` fixes it.
- hack/cqrs/main.go is not part of this model. It is a command/query bus built on reflection and closures.
- cmd/api and pkg/config are not part of this model. They are command-line wiring, configuration loading and an HTTP server stub.
