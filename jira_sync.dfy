/** The Jira sync worker (services/jira-sync-worker/main.py and config.py): it picks
    the newest meeting whose insights are ready, creates one Jira issue per action
    item, blocker and critical deadline, and records the created issues and the
    `jira_sync_state` (None/failed → processing → success/failed) in `meetings.data`.

    The Jira calls, the issue-type model, date parsing and formatting, and the roster
    file are parameters (`SyncServices`). */
module JiraSync {
  import opened Wrappers
  import opened Text
  import opened Meetings
  import opened TeamRoster
  import opened JiraClient

  // ---------------------------------------------------------------------------
  // Configuration (config.py)
  // ---------------------------------------------------------------------------

  /** The connection settings read from the environment ("" when unset). */
  datatype ConnectionEnv = ConnectionEnv(baseUrl: string, userEmail: string, apiToken: string, projectKey: string)

  /** The required settings, with their names, in the order they are checked. */
  function Required(env: ConnectionEnv): (r: seq<(string, string)>)
    ensures |r| == 4
  {
    [("JIRA_BASE_URL", env.baseUrl), ("JIRA_USER_EMAIL", env.userEmail),
     ("JIRA_API_TOKEN", env.apiToken), ("JIRA_PROJECT_KEY", env.projectKey)]
  }

  /** validate_config: (True, None) when all four settings are set, otherwise
      (False, message naming a missing one). */
  function ValidateConfig(env: ConnectionEnv): (r: (bool, Option<string>))
    ensures r.0 <==> env.baseUrl != "" && env.userEmail != "" && env.apiToken != "" && env.projectKey != ""
    ensures r.0 <==> r.1.None?
  {
    if env.baseUrl == "" then (false, Some("JIRA_BASE_URL is required"))
    else if env.userEmail == "" then (false, Some("JIRA_USER_EMAIL is required"))
    else if env.apiToken == "" then (false, Some("JIRA_API_TOKEN is required"))
    else if env.projectKey == "" then (false, Some("JIRA_PROJECT_KEY is required"))
    else (true, None)
  }

  /** With several settings missing, the message names the first in check order. */
  lemma ValidateConfigFirstMissing(env: ConnectionEnv, i: int)
    requires 0 <= i < 4 && Required(env)[i].1 == ""
    requires forall j :: 0 <= j < i ==> Required(env)[j].1 != ""
    ensures ValidateConfig(env) == (false, Some(Required(env)[i].0 + " is required"))
  {
    var req := Required(env);
    if i == 0 {
      assert req[0].0 + " is required" == "JIRA_BASE_URL is required";
    } else if i == 1 {
      assert req[0].1 != "";
      assert req[1].0 + " is required" == "JIRA_USER_EMAIL is required";
    } else if i == 2 {
      assert req[0].1 != "" && req[1].1 != "";
      assert req[2].0 + " is required" == "JIRA_API_TOKEN is required";
    } else {
      assert req[0].1 != "" && req[1].1 != "" && req[2].1 != "";
      assert req[3].0 + " is required" == "JIRA_PROJECT_KEY is required";
    }
  }

  /** PRIORITY_MAPPING: the three Russian priority words to the configured Jira names. */
  function PriorityMapping(high: string, medium: string, low: string): (m: map<string, string>)
    ensures m.Keys == {"высокий", "средний", "низкий"}
    ensures m["высокий"] == high && m["средний"] == medium && m["низкий"] == low
  {
    map["высокий" := high, "средний" := medium, "низкий" := low]
  }

  /** DRY_RUN: the environment value (default "false") lower-cases to "true". */
  function DryRunSetting(value: Option<string>): (r: bool)
    ensures r <==> value.Some? && Lower(value.value) == "true"
  {
    Lower(value.GetOr("false")) == "true"
  }

  /** The dry-run switch ignores letter case. */
  lemma DryRunCaseInsensitive(v: string)
    ensures DryRunSetting(Some(Lower(v))) == DryRunSetting(Some(v))
  {
    LowerIdempotent(v);
  }

  // ---------------------------------------------------------------------------
  // Priority, issue type and description (main.py)
  // ---------------------------------------------------------------------------

  /** map_priority: None for a missing or empty priority, otherwise the mapping's
      entry for the lower-cased priority (None when it has none). */
  function MapPriority(priority: Option<string>, mapping: map<string, string>): (r: Option<string>)
    ensures r.Some? <==> Truthy(priority) && Lower(priority.value) in mapping
    ensures r.Some? ==> r.value == mapping[Lower(priority.value)]
  {
    if !Truthy(priority) then None
    else if Lower(priority.value) in mapping then Some(mapping[Lower(priority.value)])
    else None
  }

  /** Priorities are matched ignoring letter case. */
  lemma MapPriorityCaseInsensitive(s: string, mapping: map<string, string>)
    ensures MapPriority(Some(Lower(s)), mapping) == MapPriority(Some(s), mapping)
  {
    LowerIdempotent(s);
  }

  /** The configured Jira issue type names. */
  datatype IssueTypes = IssueTypes(task: string, blocker: string, deadline: string, epic: string, feature: string, bug: string)

  /** The issue type named by a classification reply: the stripped, lower-cased reply
      is searched for "epic", then "feature" or "story", then "bug"; Task otherwise. */
  function TypeOfReply(reply: string, types: IssueTypes): (r: string)
    ensures r in {types.epic, types.feature, types.bug, types.task}
    ensures Contains(Lower(Strip(reply)), "epic") ==> r == types.epic
    ensures (!Contains(Lower(Strip(reply)), "epic")
             && (Contains(Lower(Strip(reply)), "feature") || Contains(Lower(Strip(reply)), "story"))) ==> r == types.feature
    ensures (!Contains(Lower(Strip(reply)), "epic") && Contains(Lower(Strip(reply)), "bug")
             && !Contains(Lower(Strip(reply)), "feature") && !Contains(Lower(Strip(reply)), "story")) ==> r == types.bug
    ensures (!Contains(Lower(Strip(reply)), "epic") && !Contains(Lower(Strip(reply)), "bug")
             && !Contains(Lower(Strip(reply)), "feature") && !Contains(Lower(Strip(reply)), "story")) ==> r == types.task
  {
    var c := Lower(Strip(reply));
    if Contains(c, "epic") then types.epic
    else if Contains(c, "feature") || Contains(c, "story") then types.feature
    else if Contains(c, "bug") then types.bug
    else types.task
  }

  /** The reply is read ignoring letter case. */
  lemma TypeOfReplyCaseInsensitive(reply: string, types: IssueTypes)
    ensures TypeOfReply(Lower(reply), types) == TypeOfReply(reply, types)
  {
    StripLower(reply);
    LowerIdempotent(Strip(reply));
  }

  /** classify_task_type: Task without a classifier or when the call fails, otherwise
      the type the reply names. The classifier is given the item's description. */
  function ClassifyTaskType(classifier: Option<string -> Outcome<string>>, description: string, types: IssueTypes)
    : (r: string)
    ensures r in {types.epic, types.feature, types.bug, types.task}
    ensures classifier.None? || classifier.value(description).Raised? ==> r == types.task
  {
    if classifier.None? then types.task
    else match classifier.value(description)
      case Returned(reply) => TypeOfReply(reply, types)
      case Raised(_) => types.task
  }

  /** The rule between the meeting block and the text of a description. */
  const Rule := "\n---\n\n"

  /** The Date line: the start time as formatted, or "N/A". */
  function DateText(start: Option<real>, minuteText: real -> string): (r: string)
    ensures start.None? ==> r == "N/A"
  {
    if start.Some? then minuteText(start.value) else "N/A"
  }

  /** The meeting information block; the URL reads "N/A" when missing or empty. */
  function MeetingInfo(m: Meeting, minuteText: real -> string): string {
    "\n*Meeting Information:*\n* Platform: " + m.platform
    + "\n* Meeting ID: " + PyStr(m.nativeId)
    + "\n* Meeting URL: " + OrElse(m.meetingUrl, "N/A")
    + "\n* Date: " + DateText(m.startTime, minuteText) + "\n"
  }

  /** The context block, present only for a truthy context. */
  function ContextBlock(context: Option<string>): (r: string)
    ensures r == [] <==> !Truthy(context)
  {
    if Truthy(context) then "\n*Context:*\n" + context.value + "\n" else ""
  }

  /** format_jira_description: the meeting block, the context block, the rule, then
      the text. */
  function FormatJiraDescription(text: string, m: Meeting, context: Option<string>, minuteText: real -> string)
    : (r: string)
    ensures StartsWith(r, MeetingInfo(m, minuteText))
    ensures |r| == |MeetingInfo(m, minuteText)| + |ContextBlock(context)| + |Rule| + |text|
    ensures r[|r| - |Rule| - |text|..] == Rule + text
    ensures Truthy(context) ==> OccursAt(r, ContextBlock(context), |MeetingInfo(m, minuteText)|)
  {
    var info := MeetingInfo(m, minuteText);
    var block := ContextBlock(context);
    Layout(info, block, Rule + text);
    info + block + (Rule + text)
  }

  /** Where the three parts of a + b + c sit. */
  lemma Layout(a: string, b: string, c: string)
    ensures StartsWith(a + b + c, a)
    ensures (a + b + c)[|a| + |b|..] == c
    ensures OccursAt(a + b + c, b, |a|)
  {
    var r := a + b + c;
    assert r[..|a|] == a;
    assert r[|a|..|a| + |b|] == b;
    assert r[|a| + |b|..] == c;
  }

  /** A falsy context is the same as none. */
  lemma DescriptionIgnoresFalsyContext(text: string, m: Meeting, context: Option<string>, minuteText: real -> string)
    requires !Truthy(context)
    ensures FormatJiraDescription(text, m, context, minuteText) == FormatJiraDescription(text, m, None, minuteText)
  {
  }

  /** format_due_date for a datetime: its day, or None. */
  function FormatDueDate(due: Option<real>, dayText: real -> string): (r: Option<string>)
    ensures r.Some? <==> due.Some?
  {
    if due.Some? then Some(dayText(due.value)) else None
  }

  // ---------------------------------------------------------------------------
  // Selecting a meeting
  // ---------------------------------------------------------------------------

  /** a comes no later than b in ORDER BY processed_at DESC (PostgreSQL puts NULLs
      first in descending order). */
  predicate RanksFirst(a: Meeting, b: Meeting) {
    a.processedAt.None? || (b.processedAt.Some? && a.processedAt.value >= b.processedAt.value)
  }

  predicate HasCompleted(meetings: map<int, Meeting>) {
    exists id :: id in meetings && meetings[id].summaryState == "completed"
  }

  /** id is a completed meeting that comes first in that order (ties are not broken). */
  predicate IsNewestCompleted(meetings: map<int, Meeting>, id: int) {
    && id in meetings && meetings[id].summaryState == "completed"
    && forall other :: other in meetings && meetings[other].summaryState == "completed" ==>
         RanksFirst(meetings[id], meetings[other])
  }

  lemma {:induction false} NewestAmong(meetings: map<int, Meeting>, ids: set<int>, w: int)
    requires w in ids && ids <= meetings.Keys
    ensures exists id :: id in ids && forall other :: other in ids ==> RanksFirst(meetings[id], meetings[other])
    decreases |ids|
  {
    if exists y :: y in ids && !RanksFirst(meetings[w], meetings[y]) {
      var y :| y in ids && !RanksFirst(meetings[w], meetings[y]);
      var rest := ids - {w};
      assert y in rest;
      NewestAmong(meetings, rest, y);
      var z :| z in rest && forall other :: other in rest ==> RanksFirst(meetings[z], meetings[other]);
      assert RanksFirst(meetings[z], meetings[w]) by {
        assert RanksFirst(meetings[z], meetings[y]);
      }
      forall other | other in ids
        ensures RanksFirst(meetings[z], meetings[other])
      {
        if other != w {
          assert other in rest;
        }
      }
    } else {
      assert forall other :: other in ids ==> RanksFirst(meetings[w], meetings[other]);
    }
  }

  /** Whenever a meeting is completed, a newest completed one exists. */
  lemma NewestCompletedExists(meetings: map<int, Meeting>)
    requires HasCompleted(meetings)
    ensures exists id :: IsNewestCompleted(meetings, id)
  {
    var some :| some in meetings && meetings[some].summaryState == "completed";
    var ids := set id | id in meetings && meetings[id].summaryState == "completed";
    NewestAmong(meetings, ids, some);
    var id :| id in ids && forall other :: other in ids ==> RanksFirst(meetings[id], meetings[other]);
    assert IsNewestCompleted(meetings, id);
  }

  /** `data['insights_ru']` is present and truthy. */
  predicate InsightsPresent(m: Meeting) {
    m.data.insightsRu.Some? && m.data.insightsRu.value.Truthy()
  }

  /** The newest completed meeting is taken when it has insights and is not synced yet. */
  predicate Selectable(m: Meeting) {
    InsightsPresent(m) && m.data.jiraSyncState != Some("success")
  }

  /** Writing `jira_sync_state`; the commit bumps updated_at. */
  function WithSyncState(m: Meeting, state: Option<string>, now: int): Meeting {
    m.(data := m.data.(jiraSyncState := state), updatedAt := now)
  }

  // ---------------------------------------------------------------------------
  // What one sync creates
  // ---------------------------------------------------------------------------

  datatype Labels = Labels(blocker: string, deadline: string, actionItem: string, meeting: string)

  datatype SyncConfig = SyncConfig(
    settings: Settings, types: IssueTypes, labels: Labels, priorities: map<string, string>, batchSize: int)

  /** The worker's environment: whether the Jira client can be constructed (it
      connects outside dry run), the Jira calls, the issue-type classifier (None when
      no API key is set), the roster file, and date parsing and formatting. */
  datatype SyncServices = SyncServices(
    connectFailure: Option<Failure>,
    search: string -> Outcome<seq<string>>,
    create: IssueFields -> nat -> Outcome<IssueRef>,
    classifier: Option<string -> Outcome<string>>,
    rosterFile: Option<seq<string>>,
    dayText: real -> string,
    minuteText: real -> string,
    parseDate: string -> Option<real>)

  /** The Jira client can be constructed. */
  predicate Connects(cfg: SyncConfig, svc: SyncServices) {
    cfg.settings.dryRun || svc.connectFailure.None?
  }

  /** One thing to create an issue for. */
  datatype SyncTask = ActionItemTask(row: ActionItemRow) | BlockerTask(blocker: Blocker) | DeadlineTask(deadline: Deadline)

  /** What a step reads: the meeting, its insights value, the configuration, the
      services, and the roster mapping as loaded. */
  datatype SyncContext = SyncContext(
    meeting: Meeting, insights: InsightsValue, cfg: SyncConfig, svc: SyncServices,
    roster: map<string, Option<string>>)

  /** The assignee of an owner: none without an owner; the roster's account when it
      has one; otherwise the Jira user search. */
  function AssigneeOf(owner: Option<string>, ctx: SyncContext): (r: Outcome<Option<string>>)
    ensures !Truthy(owner) ==> r == Returned(None)
    ensures Truthy(owner) && Truthy(AccountOf(ctx.roster, owner.value)) ==> r == Returned(AccountOf(ctx.roster, owner.value))
    ensures ctx.cfg.settings.dryRun ==> r.Returned?
  {
    if !Truthy(owner) then Returned(None)
    else
      var fromRoster := AccountOf(ctx.roster, owner.value);
      if Truthy(fromRoster) then Returned(fromRoster)
      else UserLookup(ctx.cfg.settings.dryRun, ctx.svc.search(owner.value))
  }

  /** What create_issue answers for the given fields. */
  function IssueReply(settings: Settings, fields: IssueFields, create: IssueFields -> nat -> Outcome<IssueRef>)
    : (r: Outcome<Option<IssueRef>>)
    ensures settings.dryRun ==> r == Returned(Some(DryRunRef))
  {
    if settings.dryRun then Returned(Some(DryRunRef)) else CreateReply(settings, fields, create)
  }

  /** "\n".join(description_parts) for an action item. */
  function ActionItemText(row: ActionItemRow): string {
    if Truthy(row.referenceUrl) then row.description + "\n" + "\n*Reference:* " + row.referenceUrl.value
    else row.description
  }

  function BlockerText(b: Blocker): string {
    var impact := b.impact.GetOr("");
    var action := b.proposedAction.GetOr("");
    b.description.GetOr("")
    + (if impact != "" then "\n" + "\n*Impact:* " + impact else "")
    + (if action != "" then "\n" + "\n*Proposed Action:* " + action else "")
  }

  function DeadlineText(d: Deadline): string {
    var risk := d.risk.GetOr("");
    var deps := d.dependencies.GetOr("");
    "*Deadline:* " + d.name.GetOr("")
    + (if risk != "" then "\n" + "\n*Risk if missed:* " + risk else "")
    + (if deps != "" then "\n" + "\n*Dependencies:* " + deps else "")
  }

  /** The deadline's date: parsed when given, None otherwise or when unparsable. */
  function DeadlineDue(d: Deadline, parseDate: string -> Option<real>): (r: Option<real>)
    ensures d.date.GetOr("") == "" ==> r.None?
  {
    var text := d.date.GetOr("");
    if text != "" then parseDate(text) else None
  }

  /** The summary of an action item's issue: owner (or "Unassigned") and the first
      100 characters of the description. */
  function ActionItemSummary(row: ActionItemRow): string {
    OrElse(row.owner, "Unassigned") + ": " + Take(row.description, 100)
  }

  function ActionItemFields(row: ActionItemRow, assignee: Option<string>, ctx: SyncContext): IssueFields {
    FieldsOf(ctx.cfg.settings.projectKey, ActionItemSummary(row),
      FormatJiraDescription(ActionItemText(row), ctx.meeting, None, ctx.svc.minuteText),
      ClassifyTaskType(ctx.svc.classifier, row.description, ctx.cfg.types),
      assignee, FormatDueDate(row.dueDate, ctx.svc.dayText), MapPriority(row.priority, ctx.cfg.priorities),
      Some([ctx.cfg.labels.actionItem, ctx.cfg.labels.meeting]))
  }

  /** Blocker issues: "Blocker: " and the first 100 characters, priority High. */
  function BlockerFields(b: Blocker, assignee: Option<string>, ctx: SyncContext): (f: IssueFields)
    ensures f.priority == Some("High") && f.issueType == ctx.cfg.types.blocker
    ensures f.summary == "Blocker: " + Take(b.description.GetOr(""), 100)
    ensures f.labels == Some([ctx.cfg.labels.blocker, ctx.cfg.labels.meeting]) && f.dueDate.None?
  {
    FieldsOf(ctx.cfg.settings.projectKey, "Blocker: " + Take(b.description.GetOr(""), 100),
      FormatJiraDescription(BlockerText(b), ctx.meeting, None, ctx.svc.minuteText),
      ctx.cfg.types.blocker, assignee, None, Some("High"),
      Some([ctx.cfg.labels.blocker, ctx.cfg.labels.meeting]))
  }

  /** Deadline issues: "Deadline: " and the name, priority High. */
  function DeadlineFields(d: Deadline, assignee: Option<string>, ctx: SyncContext): (f: IssueFields)
    ensures f.priority == Some("High") && f.issueType == ctx.cfg.types.deadline
    ensures f.summary == "Deadline: " + d.name.GetOr("")
    ensures f.labels == Some([ctx.cfg.labels.deadline, ctx.cfg.labels.meeting])
  {
    FieldsOf(ctx.cfg.settings.projectKey, "Deadline: " + d.name.GetOr(""),
      FormatJiraDescription(DeadlineText(d), ctx.meeting, None, ctx.svc.minuteText),
      ctx.cfg.types.deadline, assignee,
      FormatDueDate(DeadlineDue(d, ctx.svc.parseDate), ctx.svc.dayText), Some("High"),
      Some([ctx.cfg.labels.deadline, ctx.cfg.labels.meeting]))
  }

  /** The entry recorded in `jira_issues` for a created issue. */
  function IssueOf(t: SyncTask, issue: IssueRef): CreatedIssue {
    match t
    case ActionItemTask(row) => ActionItemIssue(row.id, issue.key, issue.id)
    case BlockerTask(b) => BlockerIssue(issue.key, issue.id, b.description.GetOr(""))
    case DeadlineTask(d) => DeadlineIssue(issue.key, issue.id, d.name.GetOr(""))
  }

  function TaskRank(t: SyncTask): nat {
    match t
    case ActionItemTask(_) => 0
    case BlockerTask(_) => 1
    case DeadlineTask(_) => 2
  }

  function IssueRank(c: CreatedIssue): nat {
    match c
    case ActionItemIssue(_, _, _) => 0
    case BlockerIssue(_, _, _) => 1
    case DeadlineIssue(_, _, _) => 2
  }

  /** Only an issue create_issue returned is recorded. */
  function Recorded(reply: Outcome<Option<IssueRef>>, t: SyncTask): (r: Outcome<Option<CreatedIssue>>)
    ensures r.Returned? <==> reply.Returned?
    ensures r.Returned? ==> (r.value.Some? <==> reply.value.Some?)
    ensures r.Returned? && r.value.Some? ==> IssueRank(r.value.value) == TaskRank(t)
  {
    match reply
    case Raised(f) => Raised(f)
    case Returned(None) => Returned(None)
    case Returned(Some(issue)) => Returned(Some(IssueOf(t, issue)))
  }

  /** The failure `.get` raises when the insights value is not a dict: the
      AttributeError naming the value's type. */
  function NotADict(v: InsightsValue): Failure
    requires v.NonDict?
  {
    OtherError(NoGet(v.typeName))
  }

  /** One iteration of sync_action_items / sync_blockers / sync_deadlines. */
  function Step(t: SyncTask, ctx: SyncContext): (r: Outcome<Option<CreatedIssue>>)
    ensures r.Returned? && r.value.Some? ==> IssueRank(r.value.value) == TaskRank(t)
    ensures ctx.cfg.settings.dryRun && ctx.insights.Dict? ==> r.Returned? && r.value.Some?
  {
    match t
    case ActionItemTask(row) =>
      var a := AssigneeOf(row.owner, ctx);
      if a.Raised? then Raised(a.failure)
      else if ctx.insights.NonDict? then Raised(NotADict(ctx.insights))
      else Recorded(IssueReply(ctx.cfg.settings, ActionItemFields(row, a.value, ctx), ctx.svc.create), t)
    case BlockerTask(b) =>
      var a := AssigneeOf(b.owner, ctx);
      if a.Raised? then Raised(a.failure)
      else Recorded(IssueReply(ctx.cfg.settings, BlockerFields(b, a.value, ctx), ctx.svc.create), t)
    case DeadlineTask(d) =>
      var a := AssigneeOf(d.owner, ctx);
      if a.Raised? then Raised(a.failure)
      else Recorded(IssueReply(ctx.cfg.settings, DeadlineFields(d, a.value, ctx), ctx.svc.create), t)
  }

  /** The issues a loop records over a list, or the first exception it raises. */
  function Gather(ts: seq<SyncTask>, ctx: SyncContext): (r: Outcome<seq<CreatedIssue>>)
    ensures r.Returned? ==> |r.value| <= |ts|
  {
    if ts == [] then Returned([])
    else match Gather(ts[..|ts| - 1], ctx)
      case Raised(f) => Raised(f)
      case Returned(done) =>
        match Step(ts[|ts| - 1], ctx)
        case Raised(f) => Raised(f)
        case Returned(None) => Returned(done)
        case Returned(Some(c)) => Returned(done + [c])
  }

  /** One more task: the loop so far, then that task's step. */
  lemma GatherNext(ts: seq<SyncTask>, i: nat, ctx: SyncContext)
    requires i < |ts| && Gather(ts[..i], ctx).Returned?
    ensures Gather(ts[..i + 1], ctx) ==
              match Step(ts[i], ctx)
              case Raised(f) => Raised(f)
              case Returned(None) => Gather(ts[..i], ctx)
              case Returned(Some(c)) => Returned(Gather(ts[..i], ctx).value + [c])
  {
    assert ts[..i + 1][..i] == ts[..i];
    assert ts[..i + 1][i] == ts[i];
  }

  /** Once a prefix raises, the whole loop raises the same exception. */
  lemma {:induction false} GatherRaisedPrefix(ts: seq<SyncTask>, k: nat, ctx: SyncContext)
    requires k <= |ts| && Gather(ts[..k], ctx).Raised?
    ensures Gather(ts, ctx) == Gather(ts[..k], ctx)
    decreases |ts| - k
  {
    if k < |ts| {
      assert ts[..k + 1][..k] == ts[..k];
      GatherRaisedPrefix(ts, k + 1, ctx);
    } else {
      assert ts[..k] == ts;
    }
  }

  /** Tasks of one kind record issues of that kind. */
  lemma {:induction false} GatherOneKind(ts: seq<SyncTask>, ctx: SyncContext, rank: nat)
    requires forall i :: 0 <= i < |ts| ==> TaskRank(ts[i]) == rank
    ensures Gather(ts, ctx).Returned? ==> forall k :: 0 <= k < |Gather(ts, ctx).value| ==> IssueRank(Gather(ts, ctx).value[k]) == rank
  {
    if ts != [] {
      GatherOneKind(ts[..|ts| - 1], ctx, rank);
    }
  }

  /** In dry run every task records an issue. */
  lemma {:induction false} GatherDryRun(ts: seq<SyncTask>, ctx: SyncContext)
    requires ctx.cfg.settings.dryRun && ctx.insights.Dict?
    ensures Gather(ts, ctx).Returned? && |Gather(ts, ctx).value| == |ts|
  {
    if ts != [] {
      GatherDryRun(ts[..|ts| - 1], ctx);
    }
  }

  function ActionTasks(rows: seq<ActionItemRow>): (ts: seq<SyncTask>)
    ensures |ts| == |rows| && forall i :: 0 <= i < |rows| ==> ts[i] == ActionItemTask(rows[i])
  {
    if rows == [] then [] else ActionTasks(rows[..|rows| - 1]) + [ActionItemTask(rows[|rows| - 1])]
  }

  function BlockerTasks(bs: seq<Blocker>): (ts: seq<SyncTask>)
    ensures |ts| == |bs| && forall i :: 0 <= i < |bs| ==> ts[i] == BlockerTask(bs[i])
  {
    if bs == [] then [] else BlockerTasks(bs[..|bs| - 1]) + [BlockerTask(bs[|bs| - 1])]
  }

  function DeadlineTasks(ds: seq<Deadline>): (ts: seq<SyncTask>)
    ensures |ts| == |ds| && forall i :: 0 <= i < |ds| ==> ts[i] == DeadlineTask(ds[i])
  {
    if ds == [] then [] else DeadlineTasks(ds[..|ds| - 1]) + [DeadlineTask(ds[|ds| - 1])]
  }

  /** The blockers, then the critical deadlines, of an insights dict. */
  function DocResult(doc: Insights, ctx: SyncContext): Outcome<seq<CreatedIssue>> {
    var blocked := Gather(BlockerTasks(doc.blockers.GetOr([])), ctx);
    if blocked.Raised? then blocked
    else
      var dated := Gather(DeadlineTasks(doc.criticalDeadlines.GetOr([])), ctx);
      if dated.Raised? then dated
      else Returned(blocked.value + dated.value)
  }

  /** The body of the `try` in sync_meeting_to_jira: the action items, then (for a
      dict) the blockers and the critical deadlines. */
  function SyncResult(rows: seq<ActionItemRow>, ctx: SyncContext): Outcome<seq<CreatedIssue>> {
    var acts := Gather(ActionTasks(rows), ctx);
    if acts.Raised? then acts
    else match ctx.insights
      case NonDict(_, _) => Raised(NotADict(ctx.insights))
      case Dict(doc) =>
        match DocResult(doc, ctx)
        case Raised(f) => Raised(f)
        case Returned(rest) => Returned(acts.value + rest)
  }

  /** Insights that are not a dict always fail the sync; with no action items the
      failure is the AttributeError of `insights.get`, naming the value's type. */
  lemma NonDictSyncFails(rows: seq<ActionItemRow>, ctx: SyncContext)
    requires ctx.insights.NonDict?
    ensures SyncResult(rows, ctx).Raised?
    ensures rows == [] ==>
              SyncResult(rows, ctx).failure == OtherError("'" + ctx.insights.typeName + "' object has no attribute 'get'")
  {
  }

  /** Issues are ordered by kind: action items, then blockers, then deadlines. */
  predicate IssuesGrouped(cs: seq<CreatedIssue>) {
    forall i, j :: 0 <= i < j < |cs| ==> IssueRank(cs[i]) <= IssueRank(cs[j])
  }

  /** A completed sync records action items first, then blockers, then deadlines;
      a value that is not a dict always fails. */
  lemma SyncResultGrouped(rows: seq<ActionItemRow>, ctx: SyncContext)
    ensures SyncResult(rows, ctx).Returned? ==> ctx.insights.Dict? && IssuesGrouped(SyncResult(rows, ctx).value)
  {
    if SyncResult(rows, ctx).Returned? {
      var acts := Gather(ActionTasks(rows), ctx);
      assert acts.Returned? && ctx.insights.Dict?;
      var doc := ctx.insights.doc;
      assert DocResult(doc, ctx).Returned?;
      var blocked := Gather(BlockerTasks(doc.blockers.GetOr([])), ctx);
      var dated := Gather(DeadlineTasks(doc.criticalDeadlines.GetOr([])), ctx);
      assert blocked.Returned? && dated.Returned?;
      GatherOneKind(ActionTasks(rows), ctx, 0);
      GatherOneKind(BlockerTasks(doc.blockers.GetOr([])), ctx, 1);
      GatherOneKind(DeadlineTasks(doc.criticalDeadlines.GetOr([])), ctx, 2);
      RanksAppend(blocked.value, dated.value, 1);
      RanksAppend(acts.value, blocked.value + dated.value, 0);
      assert SyncResult(rows, ctx).value == acts.value + (blocked.value + dated.value);
    }
  }

  /** Grouped issues of rank at most `rank`, then grouped issues of rank at least
      `rank`, are grouped together. */
  lemma RanksAppend(xs: seq<CreatedIssue>, ys: seq<CreatedIssue>, rank: nat)
    requires IssuesGrouped(xs) && forall i :: 0 <= i < |xs| ==> IssueRank(xs[i]) <= rank
    requires IssuesGrouped(ys) && forall j :: 0 <= j < |ys| ==> rank <= IssueRank(ys[j])
    ensures IssuesGrouped(xs + ys)
  {
  }

  /** In dry run every action item, blocker and deadline gets an issue. */
  lemma SyncResultDryRun(rows: seq<ActionItemRow>, ctx: SyncContext)
    requires ctx.cfg.settings.dryRun && ctx.insights.Dict?
    ensures SyncResult(rows, ctx).Returned?
    ensures |SyncResult(rows, ctx).value| ==
      |rows| + |ctx.insights.doc.blockers.GetOr([])| + |ctx.insights.doc.criticalDeadlines.GetOr([])|
  {
    var doc := ctx.insights.doc;
    GatherDryRun(ActionTasks(rows), ctx);
    GatherDryRun(BlockerTasks(doc.blockers.GetOr([])), ctx);
    GatherDryRun(DeadlineTasks(doc.criticalDeadlines.GetOr([])), ctx);
  }

  /** The meeting after a sync: success with the issues and the time, or failed with
      the error text. */
  function SyncedMeeting(m: Meeting, result: Outcome<seq<CreatedIssue>>, now: int): Meeting {
    match result
    case Returned(issues) =>
      m.(data := m.data.(jiraSyncState := Some("success"), jiraIssues := Some(issues), jiraSyncedAt := Some(now)), updatedAt := now)
    case Raised(f) =>
      m.(data := m.data.(jiraSyncState := Some("failed"), jiraError := Some(f.text)), updatedAt := now)
  }

  /** sync_meeting_to_jira on a meeting: False without insights; the exception of the
      client construction; otherwise True with state success or False with state
      failed. */
  function SyncMeetingRun(m: Meeting, rows: seq<ActionItemRow>, cfg: SyncConfig, svc: SyncServices,
                          roster: map<string, Option<string>>, now: int): (Outcome<bool>, Meeting)
  {
    if !InsightsPresent(m) then (Returned(false), m)
    else if !Connects(cfg, svc) then (Raised(svc.connectFailure.value), m)
    else
      var result := SyncResult(rows, SyncContext(m, m.data.insightsRu.value, cfg, svc, roster));
      (Returned(result.Returned?), SyncedMeeting(m, result, now))
  }

  /** The states a sync leaves, and that it changes nothing but the sync keys and
      updated_at. */
  lemma SyncMeetingStates(m: Meeting, rows: seq<ActionItemRow>, cfg: SyncConfig, svc: SyncServices,
                          roster: map<string, Option<string>>, now: int)
    ensures var (r, after) := SyncMeetingRun(m, rows, cfg, svc, roster, now);
      && (!InsightsPresent(m) ==> r == Returned(false) && after == m)
      && (InsightsPresent(m) && !Connects(cfg, svc) ==> r.Raised? && after == m)
      && (InsightsPresent(m) && Connects(cfg, svc) ==>
            && (r == Returned(true) <==> after.data.jiraSyncState == Some("success"))
            && (r == Returned(false) <==> after.data.jiraSyncState == Some("failed") && after.data.jiraError.Some?)
            && (r == Returned(true) ==> after.data.jiraIssues.Some? && IssuesGrouped(after.data.jiraIssues.value)))
      && after.(data := m.data, updatedAt := m.updatedAt) == m
      && after.data.insightsRu == m.data.insightsRu
  {
    if InsightsPresent(m) && Connects(cfg, svc) {
      SyncResultGrouped(rows, SyncContext(m, m.data.insightsRu.value, cfg, svc, roster));
    }
  }

  /** As the sync worker's writes are coded, its marks never reach the row: a meeting
      it may select holds insights_ru, so its data is not empty, and the commit keeps
      the data as it was. The meeting stays selectable after a successful sync, and
      after the "processing" claim, so the next poll syncs it again. */
  lemma SyncAsWrittenStaysSelectable(m: Meeting, issues: seq<CreatedIssue>, now: int)
    requires Selectable(m)
    ensures var claimed := WithSyncState(m, Some("processing"), now);
      Selectable(claimed.(data := StoredDataAsWritten(m.data, claimed.data)))
    ensures var synced := SyncedMeeting(m, Returned(issues), now);
      && Selectable(synced.(data := StoredDataAsWritten(m.data, synced.data)))
      && StoredDataAsWritten(m.data, synced.data).jiraIssues == m.data.jiraIssues
  {
  }

  /** With the data written as intended, a successful sync takes the meeting out of
      the selection and records the issues it created. */
  lemma SyncedNotSelectable(m: Meeting, issues: seq<CreatedIssue>, now: int)
    ensures !Selectable(SyncedMeeting(m, Returned(issues), now))
    ensures SyncedMeeting(m, Returned(issues), now).data.jiraIssues == Some(issues)
  {
  }

  /** The action_items rows of a meeting, in table order. */
  function RowsOf(table: seq<ActionItemRow>, meetingId: int): (rows: seq<ActionItemRow>)
    ensures forall r :: r in rows <==> r in table && r.meetingId == meetingId
  {
    if table == [] then []
    else
      var init := RowsOf(table[..|table| - 1], meetingId);
      var last := table[|table| - 1];
      assert forall r :: r in table <==> r in table[..|table| - 1] || r == last;
      if last.meetingId == meetingId then init + [last] else init
  }

  // ---------------------------------------------------------------------------
  // The loops
  // ---------------------------------------------------------------------------

  /** The caches agree with the context: the user cache with a fresh search, the
      roster cache with the mapping the context records. */
  predicate Ready(client: Client, roster: RosterCache, ctx: SyncContext)
    reads client, roster
  {
    && client.settings == ctx.cfg.settings
    && CacheAgrees(client.userCache, ctx.cfg.settings.dryRun, ctx.svc.search)
    && Loaded(roster.mapping, ctx.svc.rosterFile) == ctx.roster
  }

  /** The assignee lookup of the sync_* loops: the roster first, the Jira user search
      only when the roster gives no account. */
  method ResolveAssignee(owner: Option<string>, client: Client, roster: RosterCache, ctx: SyncContext)
    returns (r: Outcome<Option<string>>, searched: bool)
    requires Ready(client, roster, ctx)
    modifies client, roster
    ensures Ready(client, roster, ctx)
    ensures r == AssigneeOf(owner, ctx)
    ensures searched ==> Truthy(owner) && !Truthy(AccountOf(ctx.roster, owner.value))
  {
    if !Truthy(owner) {
      return Returned(None), false;
    }
    ghost var before := roster.mapping;
    var fromRoster := roster.GetJiraAccountId(owner.value, ctx.svc.rosterFile);
    LoadedStable(before, ctx.svc.rosterFile);
    if Truthy(fromRoster) {
      return Returned(fromRoster), false;
    }
    r, searched := client.FindUserByName(owner.value, ctx.svc.search);
  }

  method SyncActionItem(row: ActionItemRow, client: Client, roster: RosterCache, ctx: SyncContext)
    returns (r: Outcome<Option<CreatedIssue>>)
    requires Ready(client, roster, ctx)
    modifies client, roster
    ensures Ready(client, roster, ctx)
    ensures r == Step(ActionItemTask(row), ctx)
  {
    var assignee, _ := ResolveAssignee(row.owner, client, roster, ctx);
    if assignee.Raised? {
      return Raised(assignee.failure);
    }
    var description := FormatJiraDescription(ActionItemText(row), ctx.meeting, None, ctx.svc.minuteText);
    if ctx.insights.NonDict? {
      return Raised(NotADict(ctx.insights));
    }
    var taskType := ClassifyTaskType(ctx.svc.classifier, row.description, ctx.cfg.types);
    var reply, _, _ := client.CreateIssue(ActionItemSummary(row), description, taskType, assignee.value,
      FormatDueDate(row.dueDate, ctx.svc.dayText), MapPriority(row.priority, ctx.cfg.priorities),
      Some([ctx.cfg.labels.actionItem, ctx.cfg.labels.meeting]), ctx.svc.create);
    r := Recorded(reply, ActionItemTask(row));
  }

  method SyncBlocker(b: Blocker, client: Client, roster: RosterCache, ctx: SyncContext)
    returns (r: Outcome<Option<CreatedIssue>>)
    requires Ready(client, roster, ctx)
    modifies client, roster
    ensures Ready(client, roster, ctx)
    ensures r == Step(BlockerTask(b), ctx)
  {
    var description := b.description.GetOr("");
    var fullDescription := FormatJiraDescription(BlockerText(b), ctx.meeting, None, ctx.svc.minuteText);
    var assignee, _ := ResolveAssignee(b.owner, client, roster, ctx);
    if assignee.Raised? {
      return Raised(assignee.failure);
    }
    var reply, _, _ := client.CreateIssue("Blocker: " + Take(description, 100), fullDescription,
      ctx.cfg.types.blocker, assignee.value, None, Some("High"),
      Some([ctx.cfg.labels.blocker, ctx.cfg.labels.meeting]), ctx.svc.create);
    r := Recorded(reply, BlockerTask(b));
  }

  method SyncDeadline(d: Deadline, client: Client, roster: RosterCache, ctx: SyncContext)
    returns (r: Outcome<Option<CreatedIssue>>)
    requires Ready(client, roster, ctx)
    modifies client, roster
    ensures Ready(client, roster, ctx)
    ensures r == Step(DeadlineTask(d), ctx)
  {
    var name := d.name.GetOr("");
    var due := DeadlineDue(d, ctx.svc.parseDate);
    var fullDescription := FormatJiraDescription(DeadlineText(d), ctx.meeting, None, ctx.svc.minuteText);
    var assignee, _ := ResolveAssignee(d.owner, client, roster, ctx);
    if assignee.Raised? {
      return Raised(assignee.failure);
    }
    var reply, _, _ := client.CreateIssue("Deadline: " + name, fullDescription,
      ctx.cfg.types.deadline, assignee.value, FormatDueDate(due, ctx.svc.dayText), Some("High"),
      Some([ctx.cfg.labels.deadline, ctx.cfg.labels.meeting]), ctx.svc.create);
    r := Recorded(reply, DeadlineTask(d));
  }

  /** sync_action_items */
  method SyncActionItems(rows: seq<ActionItemRow>, client: Client, roster: RosterCache, ctx: SyncContext)
    returns (r: Outcome<seq<CreatedIssue>>)
    requires Ready(client, roster, ctx)
    modifies client, roster
    ensures Ready(client, roster, ctx)
    ensures r == Gather(ActionTasks(rows), ctx)
  {
    var ts := ActionTasks(rows);
    var created := [];
    for i := 0 to |rows|
      invariant Ready(client, roster, ctx)
      invariant Gather(ts[..i], ctx) == Returned(created)
    {
      GatherNext(ts, i, ctx);
      var step := SyncActionItem(rows[i], client, roster, ctx);
      match step {
        case Raised(f) =>
          GatherRaisedPrefix(ts, i + 1, ctx);
          return Raised(f);
        case Returned(None) =>
        case Returned(Some(c)) =>
          created := created + [c];
      }
    }
    assert ts[..|rows|] == ts;
    r := Returned(created);
  }

  /** sync_blockers */
  method SyncBlockers(bs: seq<Blocker>, client: Client, roster: RosterCache, ctx: SyncContext)
    returns (r: Outcome<seq<CreatedIssue>>)
    requires Ready(client, roster, ctx)
    modifies client, roster
    ensures Ready(client, roster, ctx)
    ensures r == Gather(BlockerTasks(bs), ctx)
  {
    var ts := BlockerTasks(bs);
    var created := [];
    for i := 0 to |bs|
      invariant Ready(client, roster, ctx)
      invariant Gather(ts[..i], ctx) == Returned(created)
    {
      GatherNext(ts, i, ctx);
      var step := SyncBlocker(bs[i], client, roster, ctx);
      match step {
        case Raised(f) =>
          GatherRaisedPrefix(ts, i + 1, ctx);
          return Raised(f);
        case Returned(None) =>
        case Returned(Some(c)) =>
          created := created + [c];
      }
    }
    assert ts[..|bs|] == ts;
    r := Returned(created);
  }

  /** sync_deadlines */
  method SyncDeadlines(ds: seq<Deadline>, client: Client, roster: RosterCache, ctx: SyncContext)
    returns (r: Outcome<seq<CreatedIssue>>)
    requires Ready(client, roster, ctx)
    modifies client, roster
    ensures Ready(client, roster, ctx)
    ensures r == Gather(DeadlineTasks(ds), ctx)
  {
    var ts := DeadlineTasks(ds);
    var created := [];
    for i := 0 to |ds|
      invariant Ready(client, roster, ctx)
      invariant Gather(ts[..i], ctx) == Returned(created)
    {
      GatherNext(ts, i, ctx);
      var step := SyncDeadline(ds[i], client, roster, ctx);
      match step {
        case Raised(f) =>
          GatherRaisedPrefix(ts, i + 1, ctx);
          return Raised(f);
        case Returned(None) =>
        case Returned(Some(c)) =>
          created := created + [c];
      }
    }
    assert ts[..|ds|] == ts;
    r := Returned(created);
  }

  /** The blockers and deadlines part of the `try` body of sync_meeting_to_jira. */
  method SyncDoc(doc: Insights, client: Client, roster: RosterCache, ctx: SyncContext)
    returns (r: Outcome<seq<CreatedIssue>>)
    requires Ready(client, roster, ctx)
    modifies client, roster
    ensures Ready(client, roster, ctx)
    ensures r == DocResult(doc, ctx)
  {
    var bs := doc.blockers.GetOr([]);
    var blocked: Outcome<seq<CreatedIssue>> := Returned([]);
    if bs != [] {
      blocked := SyncBlockers(bs, client, roster, ctx);
      if blocked.Raised? {
        return blocked;
      }
    }
    var ds := doc.criticalDeadlines.GetOr([]);
    var dated: Outcome<seq<CreatedIssue>> := Returned([]);
    if ds != [] {
      dated := SyncDeadlines(ds, client, roster, ctx);
      if dated.Raised? {
        return dated;
      }
    }
    r := Returned(blocked.value + dated.value);
  }

  /** The `try` body of sync_meeting_to_jira. */
  method SyncInsights(rows: seq<ActionItemRow>, client: Client, roster: RosterCache, ctx: SyncContext)
    returns (r: Outcome<seq<CreatedIssue>>)
    requires Ready(client, roster, ctx)
    modifies client, roster
    ensures Ready(client, roster, ctx)
    ensures r == SyncResult(rows, ctx)
  {
    var acts: Outcome<seq<CreatedIssue>> := Returned([]);
    if rows != [] {
      acts := SyncActionItems(rows, client, roster, ctx);
      if acts.Raised? {
        return acts;
      }
    }
    if ctx.insights.NonDict? {
      return Raised(NotADict(ctx.insights));
    }
    var rest := SyncDoc(ctx.insights.doc, client, roster, ctx);
    if rest.Raised? {
      return Raised(rest.failure);
    }
    r := Returned(acts.value + rest.value);
  }

  // ---------------------------------------------------------------------------
  // The meetings table
  // ---------------------------------------------------------------------------

  /** The sync keys a meeting may be left with once a batch has handled it. */
  predicate SyncDone(m: Meeting) {
    m.data.jiraSyncState in {Some("success"), Some("failed"), None}
  }

  /** What a sync keeps: everything but `data`'s sync keys and updated_at. */
  predicate Kept(before: Meeting, after: Meeting) {
    && after.summaryState == before.summaryState
    && after.processedAt == before.processedAt
    && after.data.insightsRu == before.data.insightsRu
  }

  /** The meetings the worker reads and writes, and the action_items table it reads. */
  class SyncStore {
    var meetings: map<int, Meeting>
    const actionItems: seq<ActionItemRow>

    constructor(meetings: map<int, Meeting>, actionItems: seq<ActionItemRow>)
      ensures this.meetings == meetings && this.actionItems == actionItems
    {
      this.meetings := meetings;
      this.actionItems := actionItems;
    }

    /** select_next_meeting: looks only at the newest completed meeting, and marks it
        "processing" when it has insights and is not synced yet. */
    method SelectNextMeeting(now: int) returns (picked: Option<int>)
      modifies this
      ensures picked.Some? ==>
        && IsNewestCompleted(old(meetings), picked.value) && Selectable(old(meetings)[picked.value])
        && meetings == old(meetings)[picked.value := WithSyncState(old(meetings)[picked.value], Some("processing"), now)]
      ensures picked.None? ==> meetings == old(meetings)
      ensures picked.None? ==>
        !HasCompleted(old(meetings)) || exists id :: IsNewestCompleted(old(meetings), id) && !Selectable(old(meetings)[id])
    {
      if !HasCompleted(meetings) {
        return None;
      }
      NewestCompletedExists(meetings);
      var id :| IsNewestCompleted(meetings, id);
      if !Selectable(meetings[id]) {
        return None;
      }
      meetings := meetings[id := WithSyncState(meetings[id], Some("processing"), now)];
      picked := Some(id);
    }

    /** sync_meeting_to_jira */
    method SyncMeetingToJira(id: int, roster: RosterCache, cfg: SyncConfig, svc: SyncServices, now: int)
      returns (r: Outcome<bool>)
      requires id in meetings
      modifies this, roster
      ensures id in meetings && meetings == old(meetings)[id := meetings[id]]
      ensures (r, meetings[id]) ==
        SyncMeetingRun(old(meetings)[id], RowsOf(actionItems, id), cfg, svc, Loaded(old(roster.mapping), svc.rosterFile), now)
      ensures Loaded(roster.mapping, svc.rosterFile) == Loaded(old(roster.mapping), svc.rosterFile)
    {
      var m := meetings[id];
      if !InsightsPresent(m) {
        return Returned(false);
      }
      if !cfg.settings.dryRun && svc.connectFailure.Some? {
        return Raised(svc.connectFailure.value);
      }
      var client := new Client(cfg.settings);
      var ctx := SyncContext(m, m.data.insightsRu.value, cfg, svc, Loaded(roster.mapping, svc.rosterFile));
      LoadedStable(roster.mapping, svc.rosterFile);
      var result := SyncInsights(RowsOf(actionItems, id), client, roster, ctx);
      meetings := meetings[id := SyncedMeeting(m, result, now)];
      r := Returned(result.Returned?);
    }

    /** One round of process_batch after a meeting was picked: the sync, and the
        reset of the state to None when it raises. True when the sync returned. */
    method SyncPicked(id: int, roster: RosterCache, cfg: SyncConfig, svc: SyncServices, now: int)
      returns (returned: bool)
      requires id in meetings && InsightsPresent(meetings[id])
      modifies this, roster
      ensures id in meetings && meetings == old(meetings)[id := meetings[id]]
      ensures returned <==> Connects(cfg, svc)
      ensures SyncDone(meetings[id]) && Kept(old(meetings)[id], meetings[id])
    {
      ghost var before := meetings[id];
      ghost var rosterBefore := roster.mapping;
      var r := SyncMeetingToJira(id, roster, cfg, svc, now);
      SyncMeetingStates(before, RowsOf(actionItems, id), cfg, svc, Loaded(rosterBefore, svc.rosterFile), now);
      if r.Raised? {
        meetings := meetings[id := WithSyncState(meetings[id], None, now)];
      }
      returned := r.Returned?;
    }

    /** process_batch: up to batchSize rounds of select and sync; a sync that raises
        resets the state to None. True when some sync returned. */
    method ProcessBatch(roster: RosterCache, cfg: SyncConfig, svc: SyncServices, now: int)
      returns (processedAny: bool, picks: seq<int>)
      modifies this, roster
      ensures |picks| <= if cfg.batchSize > 0 then cfg.batchSize else 0
      ensures processedAny <==> picks != [] && Connects(cfg, svc)
      ensures meetings.Keys == old(meetings).Keys
      ensures forall id :: id in meetings && id !in picks ==> meetings[id] == old(meetings)[id]
      ensures forall id :: id in picks ==> id in meetings && SyncDone(meetings[id])
      ensures forall id :: id in meetings ==> Kept(old(meetings)[id], meetings[id])
      ensures |picks| < cfg.batchSize ==>
        !HasCompleted(meetings) || exists id :: IsNewestCompleted(meetings, id) && !Selectable(meetings[id])
    {
      processedAny := false;
      picks := [];
      while |picks| < cfg.batchSize
        invariant meetings.Keys == old(meetings).Keys
        invariant |picks| <= if cfg.batchSize > 0 then cfg.batchSize else 0
        invariant processedAny <==> picks != [] && Connects(cfg, svc)
        invariant forall id :: id in meetings && id !in picks ==> meetings[id] == old(meetings)[id]
        invariant forall id :: id in picks ==> id in meetings && SyncDone(meetings[id])
        invariant forall id :: id in meetings ==> Kept(old(meetings)[id], meetings[id])
        decreases cfg.batchSize - |picks|
      {
        var picked, returned := SelectAndSync(roster, cfg, svc, now);
        if picked.None? {
          return;
        }
        processedAny := processedAny || returned;
        picks := picks + [picked.value];
      }
    }

    /** One round of process_batch: select the next meeting and, when one is picked,
        sync it. Only the picked meeting changes, and it ends synced or reset. */
    method SelectAndSync(roster: RosterCache, cfg: SyncConfig, svc: SyncServices, now: int)
      returns (picked: Option<int>, returned: bool)
      modifies this, roster
      ensures picked.None? ==> meetings == old(meetings)
      ensures picked.None? ==>
        !HasCompleted(meetings) || exists id :: IsNewestCompleted(meetings, id) && !Selectable(meetings[id])
      ensures picked.Some? ==>
        && IsNewestCompleted(old(meetings), picked.value)
        && picked.value in meetings && meetings == old(meetings)[picked.value := meetings[picked.value]]
        && SyncDone(meetings[picked.value]) && Kept(old(meetings)[picked.value], meetings[picked.value])
        && (returned <==> Connects(cfg, svc))
    {
      ghost var before := meetings;
      picked := SelectNextMeeting(now);
      if picked.None? {
        return picked, false;
      }
      var id := picked.value;
      assert Kept(before[id], meetings[id]);
      ghost var selected := meetings;
      returned := SyncPicked(id, roster, cfg, svc, now);
      assert Kept(selected[id], meetings[id]);
    }

    /** sync_meeting_by_id: False for an unknown meeting, True without syncing when it
        is already synced, otherwise the sync's answer. */
    method SyncMeetingById(id: int, roster: RosterCache, cfg: SyncConfig, svc: SyncServices, now: int)
      returns (r: Outcome<bool>)
      modifies this, roster
      ensures id !in old(meetings) ==> r == Returned(false) && meetings == old(meetings)
      ensures id in old(meetings) && old(meetings)[id].data.jiraSyncState == Some("success") ==>
        r == Returned(true) && meetings == old(meetings)
      ensures id in old(meetings) && old(meetings)[id].data.jiraSyncState != Some("success") ==>
        && id in meetings && meetings == old(meetings)[id := meetings[id]]
        && (r, meetings[id]) ==
             SyncMeetingRun(old(meetings)[id], RowsOf(actionItems, id), cfg, svc, Loaded(old(roster.mapping), svc.rosterFile), now)
    {
      if id !in meetings {
        return Returned(false);
      }
      if meetings[id].data.jiraSyncState == Some("success") {
        return Returned(true);
      }
      r := SyncMeetingToJira(id, roster, cfg, svc, now);
    }
  }
}
