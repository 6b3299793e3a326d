/** The event model of hack/event_stream_convergence/main.go: event types,
    the closed set of payload variants, and the immutable event envelope. */
module Events {

  /** A namespaced discriminant, "<source>.<action>". */
  type EventType = string

  // Event types emitted by the source-control system.
  const GithubEventTypePullRequestOpened: EventType := "github.pull_request_opened"
  const GithubEventTypePullRequestMerged: EventType := "github.pull_request_merged"
  const GithubEventTypePullRequestIssueLinked: EventType := "github.issue_linked_to_pr"
  const GithubEventTypePullRequestIssueUnLinked: EventType := "github.issue_unlinked_to_pr"

  // Event types emitted by the issue tracker.
  const JiraEventTypeIssueCreated: EventType := "jira.issue_created"
  const JiraEventTypeIssueStatusChanged: EventType := "jira.issue_status_changed"
  const JiraEventTypeIssueClosed: EventType := "jira.issue_completed"

  /** The payload union: a marker carrying nothing, or the id of the issue a
      pull request was linked to (or unlinked from). */
  datatype EventPayload =
    | DefaultPayload
    | GithubPullRequestIssueLinkedPayload(IssueId: string)

  /** An immutable event. `occurredAt` is an instant in seconds after a fixed
      epoch; the program only ever compares two instants. */
  datatype AggregateEvent = AggregateEvent(
    aggregateId: string,
    eventType: EventType,
    occurredAt: int,
    payload: EventPayload)

  /** An ordered collection of events, in arrival order (not necessarily
      chronological). */
  type EventStream = seq<AggregateEvent>

  /** The kinds of event that abort a projection (the program panics on both). */
  datatype ApplyError =
    | UnsupportedEventType(eventType: EventType)
    | MalformedEvent(eventType: EventType)
}
