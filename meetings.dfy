/** Records shared by the services: the meeting row, its JSONB `data` column, the
    insights document the summary model returns, and transcript segments.

    JSON objects are modelled with one `Option` per key the producers write:
    `None` stands for a key that is absent, so `d.get(key, default)` is
    `d.key.GetOr(default)`. */
module Meetings {
  import opened Wrappers

  // ---------------------------------------------------------------------------
  // The insights document (the JSON schema the summary prompt asks for)
  // ---------------------------------------------------------------------------

  datatype Overview = Overview(goal: Option<string>, summary: Option<string>, sentiment: Option<string>)

  const EmptyOverview := Overview(None, None, None)

  datatype ResponsiblePerson = ResponsiblePerson(
    person: Option<string>, role: Option<string>, keyTasks: Option<seq<string>>,
    workload: Option<string>, notes: Option<string>)

  datatype Deadline = Deadline(
    name: Option<string>, owner: Option<string>, date: Option<string>,
    risk: Option<string>, dependencies: Option<string>)

  datatype Blocker = Blocker(
    description: Option<string>, owner: Option<string>, impact: Option<string>,
    proposedAction: Option<string>)

  datatype Subtask = Subtask(
    title: Option<string>, owner: Option<string>, dueDate: Option<string>,
    dependencies: Option<string>, handoffNotes: Option<string>)

  datatype TaskBreakdown = TaskBreakdown(
    parentTask: Option<string>, description: Option<string>, priority: Option<string>,
    recommendedTools: Option<seq<string>>, subtasks: Option<seq<Subtask>>)

  datatype DocActionItem = DocActionItem(
    description: Option<string>, owner: Option<string>, dueDate: Option<string>,
    status: Option<string>, priority: Option<string>, reference: Option<string>)

  datatype Highlight = Highlight(
    text: Option<string>, startSec: Option<real>, endSec: Option<real>, labelText: Option<string>)

  datatype SpeakerDigest = SpeakerDigest(name: Option<string>, highlights: Option<seq<Highlight>>)

  datatype Insights = Insights(
    overview: Option<Overview>,
    responsiblePeople: Option<seq<ResponsiblePerson>>,
    criticalDeadlines: Option<seq<Deadline>>,
    blockers: Option<seq<Blocker>>,
    taskBreakdown: Option<seq<TaskBreakdown>>,
    actionItems: Option<seq<DocActionItem>>,
    speakerDigests: Option<seq<SpeakerDigest>>)
  {
    /** Python truthiness of the dict: it is falsy exactly when it has no key. */
    predicate Truthy() {
      overview.Some? || responsiblePeople.Some? || criticalDeadlines.Some? || blockers.Some?
      || taskBreakdown.Some? || actionItems.Some? || speakerDigests.Some?
    }
  }

  /** What `data['insights_ru']` holds: a dict, or a JSON value of another Python
      type (named), of which the readers use its truthiness and, through the
      AttributeError `.get` raises on it, its type name. */
  datatype InsightsValue = Dict(doc: Insights) | NonDict(typeName: string, truthy: bool) {
    predicate Truthy() {
      match this
      case Dict(d) => d.Truthy()
      case NonDict(_, t) => t
    }
  }

  /** str() of the AttributeError that `.get` raises on a value of the named type. */
  function NoGet(typeName: string): string {
    "'" + typeName + "' object has no attribute 'get'"
  }

  // ---------------------------------------------------------------------------
  // meetings.data and the meeting row
  // ---------------------------------------------------------------------------

  /** One issue recorded in `data['jira_issues']` by the Jira sync worker. */
  datatype CreatedIssue =
    | ActionItemIssue(localId: int, jiraKey: string, jiraId: string)
    | BlockerIssue(jiraKey: string, jiraId: string, description: string)
    | DeadlineIssue(jiraKey: string, jiraId: string, name: string)

  datatype MeetingData = MeetingData(
    insightsRu: Option<InsightsValue>,
    teamRosterSnapshot: Option<string>,
    jiraSyncState: Option<string>,
    jiraIssues: Option<seq<CreatedIssue>>,
    jiraError: Option<string>,
    jiraSyncedAt: Option<int>)
  {
    /** `not meeting.data`: the JSON object has no key. */
    predicate IsEmpty() {
      insightsRu.None? && teamRosterSnapshot.None? && jiraSyncState.None?
      && jiraIssues.None? && jiraError.None? && jiraSyncedAt.None?
    }
  }

  const EmptyData := MeetingData(None, None, None, None, None, None)

  /** What a commit stores in `meetings.data`, a plain JSONB column without mutation
      tracking, after the services' idiom `meeting.data = meeting.data or {}` followed
      by item writes into `meeting.data`. An empty column is replaced by a fresh object,
      which differs from the committed value and is written whole. A non-empty one is
      the very object the session holds as committed: assigning it back and changing
      it in place leaves it equal to itself, so no UPDATE carries the change. */
  function StoredDataAsWritten(before: MeetingData, written: MeetingData): MeetingData {
    if before.IsEmpty() then written else before
  }

  /** A row of `meetings`. Instants are seconds on one clock; `meetingUrl` is the
      URL derived from platform and native id. */
  datatype Meeting = Meeting(
    id: int,
    platform: string,
    nativeId: Option<string>,
    meetingUrl: Option<string>,
    status: string,
    startTime: Option<real>,
    updatedAt: int,
    processedAt: Option<int>,
    summaryState: string,
    data: MeetingData)

  /** A row of `transcriptions`. */
  datatype Segment = Segment(
    meetingId: int, startTime: real, endTime: real, text: string,
    speaker: Option<string>, language: Option<string>)

  /** A row of `action_items`; `dueDate` is the parsed due instant. */
  datatype ActionItemRow = ActionItemRow(
    id: int, meetingId: int, owner: Option<string>, description: string, dueDate: Option<real>,
    status: Option<string>, priority: Option<string>, referenceUrl: Option<string>)

  /** A rendered instant: `isoformat()` of a point in time, or a fixed text. */
  datatype TimeText = IsoFormat(at: real) | Literal(text: string)

  /** Python truthiness of an optional string. */
  predicate Truthy(s: Option<string>) {
    s.Some? && s.value != ""
  }

  /** f"{x}" for an optional string: None prints as "None". */
  function PyStr(s: Option<string>): (r: string)
    ensures s.Some? ==> r == s.value
    ensures s.None? ==> r == "None"
  {
    if s.Some? then s.value else "None"
  }

  /** `s or default` for an optional string. */
  function OrElse(s: Option<string>, default: string): (r: string)
    ensures Truthy(s) ==> r == s.value
    ensures !Truthy(s) ==> r == default
  {
    if Truthy(s) then s.value else default
  }
}
