/** The bookkeeping of `create_jira_tasks_from_llm_response`
    (services/jira-integration/main.py): epics with their tasks and subtasks, then
    standalone tasks, then action items are created one by one; every failure adds
    one error and processing goes on, and the result records what was created. */
module JiraTasks {
  import opened Wrappers
  import opened Text
  import Meetings
  import opened JiraIntegration

  // ---------------------------------------------------------------------------
  // The model's JSON
  // ---------------------------------------------------------------------------

  /** A list element: an object, or a value of another Python type (named), on
      which `.get` raises AttributeError. */
  datatype Entry<+T> = Obj(fields: T) | Scalar(typeName: string)

  datatype SubtaskData = SubtaskData(
    title: Option<string>, description: Option<string>, dependencies: Option<string>,
    assignee: Option<string>, owner: Option<string>, dueDate: Option<string>, handoffNotes: Option<string>)

  datatype EpicTaskData = EpicTaskData(
    summary: Option<string>, description: Option<string>, priority: Option<string>,
    assignee: Option<string>, dueDate: Option<string>, subtasks: Option<seq<Entry<SubtaskData>>>)

  datatype EpicData = EpicData(
    name: Option<string>, summary: Option<string>, description: Option<string>, priority: Option<string>,
    tasks: Option<seq<Entry<EpicTaskData>>>)

  /** An element of `task_breakdown` or `standalone_tasks`. */
  datatype TaskItem = TaskItem(
    parentTask: Option<string>, summary: Option<string>, description: Option<string>, priority: Option<string>,
    assignee: Option<string>, owner: Option<string>, dueDate: Option<string>,
    recommendedTools: Option<seq<string>>, subtasks: Option<seq<Entry<SubtaskData>>>)

  datatype ActionData = ActionData(
    description: Option<string>, owner: Option<string>, assignee: Option<string>,
    dueDate: Option<string>, priority: Option<string>, reference: Option<string>)

  datatype LlmResponse = LlmResponse(
    epics: Option<seq<Entry<EpicData>>>, taskBreakdown: Option<seq<Entry<TaskItem>>>,
    standaloneTasks: Option<seq<Entry<TaskItem>>>, actionItems: Option<seq<Entry<ActionData>>>)

  // ---------------------------------------------------------------------------
  // Requests
  // ---------------------------------------------------------------------------

  /** The project key and the configured issue type names. */
  datatype Project = Project(key: string, taskType: string, subtaskType: string, epicType: string)

  /** What one pass works with: the site, its POST, the project, the meeting summary
      and the create_subtasks switch. */
  datatype Env = Env(
    site: Site, post: Payload -> Result<string>, project: Project,
    meetingSummary: Option<string>, createSubtasks: bool)

  /** `x or y` for optional strings. */
  function Either(x: Option<string>, y: Option<string>): (r: Option<string>)
    ensures Meetings.Truthy(x) ==> r == x
    ensures !Meetings.Truthy(x) ==> r == y
  {
    if Meetings.Truthy(x) then x else y
  }

  /** The meeting-context header put before a description. */
  function WithContext(text: string, meetingSummary: Option<string>): (r: string)
    ensures !Meetings.Truthy(meetingSummary) ==> r == text
    ensures Meetings.Truthy(meetingSummary) ==> r == "Контекст встречи: " + meetingSummary.value + "\n\n" + text
  {
    if Meetings.Truthy(meetingSummary) then "Контекст встречи: " + meetingSummary.value + "\n\n" + text else text
  }

  function EpicName(e: EpicData): string {
    e.name.GetOr(e.summary.GetOr("Untitled Epic"))
  }

  function EpicRequest(e: EpicData, env: Env): (q: IssueRequest)
    ensures q.issueType == env.project.epicType && q.epicName == Some(EpicName(e)) && q.parentKey.None?
  {
    IssueRequest(env.project.key, e.summary.GetOr(EpicName(e)),
      WithContext(e.description.GetOr(""), env.meetingSummary),
      env.project.epicType, ParsePriority(e.priority), None, None, None, Some(EpicName(e)))
  }

  function EpicTaskRequest(t: EpicTaskData, epicKey: string, env: Env): (q: IssueRequest)
    ensures q.issueType == env.project.taskType && q.parentKey == Some(epicKey) && q.epicName.None?
  {
    IssueRequest(env.project.key, t.summary.GetOr("Untitled Task"), t.description.GetOr(""),
      env.project.taskType, ParsePriority(t.priority), t.assignee, t.dueDate, Some(epicKey), None)
  }

  /** A subtask's description: its description, else its dependencies; standalone
      tasks' subtasks append their hand-off notes. */
  function SubtaskText(s: SubtaskData, standalone: bool): string {
    var d := s.description.GetOr(s.dependencies.GetOr(""));
    if standalone && Meetings.Truthy(s.handoffNotes) then d + "\n\nПримечания для передачи: " + s.handoffNotes.value
    else d
  }

  function SubtaskRequest(s: SubtaskData, standalone: bool, taskKey: string, priority: Option<string>, env: Env)
    : (q: IssueRequest)
    ensures q.issueType == env.project.subtaskType && q.parentKey == Some(taskKey)
    ensures q.description != "" && q.priority == priority
  {
    var d := SubtaskText(s, standalone);
    IssueRequest(env.project.key, s.title.GetOr("Untitled Subtask"), if d != "" then d else "No description",
      env.project.subtaskType, priority, if standalone then Either(s.assignee, s.owner) else s.assignee,
      s.dueDate, Some(taskKey), None)
  }

  function ItemSummary(t: TaskItem): string {
    if Meetings.Truthy(t.parentTask) then t.parentTask.value else t.summary.GetOr("Untitled Task")
  }

  /** The name a standalone task's errors give it. */
  function ItemName(t: TaskItem): string {
    if Meetings.Truthy(t.parentTask) then t.parentTask.value else t.summary.GetOr("unknown")
  }

  function ItemText(t: TaskItem, env: Env): string {
    var d := WithContext(t.description.GetOr(""), env.meetingSummary);
    if t.recommendedTools.Some? && t.recommendedTools.value != [] then
      d + "\n\nРекомендуемые инструменты: " + Join(", ", t.recommendedTools.value)
    else d
  }

  function ItemRequest(t: TaskItem, env: Env): (q: IssueRequest)
    ensures q.issueType == env.project.taskType && q.parentKey.None?
  {
    IssueRequest(env.project.key, ItemSummary(t), ItemText(t, env), env.project.taskType,
      ParsePriority(t.priority), Either(t.assignee, t.owner), t.dueDate, None, None)
  }

  function ActionText(a: ActionData, env: Env): string {
    var d := WithContext(a.description.GetOr(""), env.meetingSummary);
    if Meetings.Truthy(a.reference) then d + "\n\nСсылка: " + a.reference.value else d
  }

  /** An action item becomes a task whose summary is its cleaned description. */
  function ActionRequest(a: ActionData, env: Env): (q: IssueRequest)
    ensures q.issueType == env.project.taskType && q.parentKey.None? && |q.summary| <= MaxSummary
  {
    IssueRequest(env.project.key, CleanSummary(a.description.GetOr("")), ActionText(a, env),
      env.project.taskType, ParsePriority(a.priority), Either(a.owner, a.assignee), a.dueDate, None, None)
  }

  function Failed(what: string, name: string, error: string): string {
    "Failed to create " + what + " '" + name + "': " + error
  }

  const AbortPrefix := "Failed to process LLM response: "

  // ---------------------------------------------------------------------------
  // The record of a pass
  // ---------------------------------------------------------------------------

  datatype TaskResponse = TaskResponse(
    issueType: string, issueKey: string, issueUrl: string, parentKey: Option<string>,
    childKeys: seq<string>, childUrls: seq<string>)

  function NewResponse(site: Site, issueType: string, key: string, parentKey: Option<string>): TaskResponse {
    TaskResponse(issueType, key, IssueUrl(site, key), parentKey, [], [])
  }

  /** A response's URLs are those of its keys. */
  predicate ResponseOk(site: Site, r: TaskResponse) {
    && r.issueUrl == IssueUrl(site, r.issueKey)
    && |r.childUrls| == |r.childKeys|
    && forall k :: 0 <= k < |r.childKeys| ==> r.childUrls[k] == IssueUrl(site, r.childKeys[k])
  }

  /** A child appended with its own URL keeps a response's URLs those of its keys. */
  function WithChild(site: Site, r: TaskResponse, key: string): (out: TaskResponse)
    requires ResponseOk(site, r)
    ensures out == r.(childKeys := out.childKeys, childUrls := out.childUrls)
    ensures ResponseOk(site, out) && out.childKeys == r.childKeys + [key]
  {
    var out := r.(childKeys := r.childKeys + [key], childUrls := r.childUrls + [IssueUrl(site, key)]);
    assert forall k :: 0 <= k < |r.childKeys| ==> out.childKeys[k] == r.childKeys[k] && out.childUrls[k] == r.childUrls[k];
    out
  }

  predicate AllResponsesOk(site: Site, rs: seq<TaskResponse>) {
    forall i :: 0 <= i < |rs| ==> ResponseOk(site, rs[i])
  }

  /** r is the response of the task created with key `key` under the epic `epicKey`. */
  predicate IsTaskOf(r: TaskResponse, key: string, epicKey: string) {
    r.issueKey == key && r.parentKey == Some(epicKey) && r.issueType == "Task"
  }

  /** The epic at index i is preceded by the responses of its tasks, in order. */
  predicate TasksPrecede(rs: seq<TaskResponse>, i: int)
    requires 0 <= i < |rs|
  {
    var n := |rs[i].childKeys|;
    n <= i && forall k :: 0 <= k < n ==> IsTaskOf(rs[i - n + k], rs[i].childKeys[k], rs[i].issueKey)
  }

  predicate EpicsFollowTasks(rs: seq<TaskResponse>) {
    forall i :: 0 <= i < |rs| && rs[i].issueType == "Epic" ==> TasksPrecede(rs, i)
  }

  datatype Kind = EpicKind | TaskKind | SubtaskKind | ActionKind

  /** What happened during a pass: a call to create_issue with its payload and
      reply, or an element that was not an object. */
  datatype Event = Called(kind: Kind, payload: Payload, reply: Result<string>) | Malformed(typeName: string)

  predicate Fault(e: Event) {
    e.Malformed? || e.reply.Err?
  }

  /** The events that each add one error. */
  function Faults(es: seq<Event>): nat {
    if es == [] then 0 else Faults(es[..|es| - 1]) + (if Fault(es[|es| - 1]) then 1 else 0)
  }

  lemma FaultsAppend(es: seq<Event>, e: Event)
    ensures Faults(es + [e]) == Faults(es) + (if Fault(e) then 1 else 0)
  {
    assert (es + [e])[..|es|] == es;
  }

  /** The keys of the issues created, of subtasks or of other kinds. */
  function Created(es: seq<Event>, subtask: bool): set<string> {
    if es == [] then {}
    else
      var e := es[|es| - 1];
      Created(es[..|es| - 1], subtask)
      + if e.Called? && e.reply.Ok? && (e.kind == SubtaskKind) == subtask then {e.reply.value} else {}
  }

  lemma CreatedAppend(es: seq<Event>, e: Event, subtask: bool)
    ensures Created(es + [e], subtask) ==
      Created(es, subtask) + if e.Called? && e.reply.Ok? && (e.kind == SubtaskKind) == subtask then {e.reply.value} else {}
  {
    assert (es + [e])[..|es|] == es;
  }

  predicate SubtaskCall(e: Event) {
    e.Called? && e.kind == SubtaskKind
  }

  /** The keys created so far, and whether any subtask call was made, after one more event. */
  lemma EventAppend(rs: seq<TaskResponse>, es: seq<Event>, e: Event)
    requires KeysCreated(rs, es)
    ensures Faults(es + [e]) == Faults(es) + (if Fault(e) then 1 else 0)
    ensures Created(es, true) <= Created(es + [e], true) && Created(es, false) <= Created(es + [e], false)
    ensures !e.Called? || e.reply.Err? ==> Created(es + [e], true) == Created(es, true) && Created(es + [e], false) == Created(es, false)
    ensures e.Called? && e.reply.Ok? ==> e.reply.value in Created(es + [e], e.kind == SubtaskKind)
    ensures KeysCreated(rs, es + [e])
    ensures (forall i :: 0 <= i < |es| ==> !SubtaskCall(es[i])) && !SubtaskCall(e) ==>
              forall i :: 0 <= i < |es + [e]| ==> !SubtaskCall((es + [e])[i])
  {
    FaultsAppend(es, e);
    CreatedAppend(es, e, true);
    CreatedAppend(es, e, false);
    assert forall i :: 0 <= i < |es| ==> (es + [e])[i] == es[i];
  }

  /** Every response's key, and every task's subtask key, is the key of an issue the
      pass created. */
  predicate KeysCreated(rs: seq<TaskResponse>, es: seq<Event>) {
    && (forall i :: 0 <= i < |rs| ==> rs[i].issueKey in Created(es, false))
    && (forall i, k :: 0 <= i < |rs| && rs[i].issueType == "Task" && 0 <= k < |rs[i].childKeys| ==>
          rs[i].childKeys[k] in Created(es, true))
  }

  /** The last event is an element that was not an object, raising `message`. */
  predicate LastMalformed(es: seq<Event>, message: string) {
    es != [] && es[|es| - 1].Malformed? && message == Meetings.NoGet(es[|es| - 1].typeName)
  }

  lemma AppendTask(rs: seq<TaskResponse>, es: seq<Event>, site: Site, r: TaskResponse)
    requires AllResponsesOk(site, rs) && EpicsFollowTasks(rs) && KeysCreated(rs, es)
    requires ResponseOk(site, r) && r.issueType == "Task" && r.issueKey in Created(es, false)
    requires forall k :: 0 <= k < |r.childKeys| ==> r.childKeys[k] in Created(es, true)
    ensures AllResponsesOk(site, rs + [r]) && EpicsFollowTasks(rs + [r]) && KeysCreated(rs + [r], es)
  {
    var rs' := rs + [r];
    forall i | 0 <= i < |rs'| && rs'[i].issueType == "Epic"
      ensures TasksPrecede(rs', i)
    {
      assert i < |rs| && TasksPrecede(rs, i);
      TasksPrecedeExtend(rs, r, i);
    }
  }

  /** From index base on, rs holds the responses of the tasks with the given keys,
      all under the epic epicKey. */
  predicate ChildrenAt(rs: seq<TaskResponse>, base: nat, epicKey: string, keys: seq<string>) {
    && base + |keys| == |rs|
    && forall m :: 0 <= m < |keys| ==> IsTaskOf(rs[base + m], keys[m], epicKey)
  }

  lemma ChildrenAppend(rs: seq<TaskResponse>, base: nat, epicKey: string, keys: seq<string>, r: TaskResponse)
    requires ChildrenAt(rs, base, epicKey, keys)
    requires r.parentKey == Some(epicKey) && r.issueType == "Task"
    ensures ChildrenAt(rs + [r], base, epicKey, keys + [r.issueKey])
  {
    var rs' := rs + [r];
    var keys' := keys + [r.issueKey];
    forall m | 0 <= m < |keys'|
      ensures IsTaskOf(rs'[base + m], keys'[m], epicKey)
    {
      if m < |keys| {
        assert rs'[base + m] == rs[base + m] && keys'[m] == keys[m];
      } else {
        assert rs'[base + m] == r;
      }
    }
  }

  lemma AppendEpic(rs: seq<TaskResponse>, es: seq<Event>, site: Site, base: nat, epic: TaskResponse)
    requires AllResponsesOk(site, rs) && EpicsFollowTasks(rs) && KeysCreated(rs, es)
    requires ResponseOk(site, epic) && epic.issueType == "Epic" && epic.issueKey in Created(es, false)
    requires ChildrenAt(rs, base, epic.issueKey, epic.childKeys)
    ensures AllResponsesOk(site, rs + [epic]) && EpicsFollowTasks(rs + [epic]) && KeysCreated(rs + [epic], es)
  {
    var rs' := rs + [epic];
    assert forall i :: 0 <= i < |rs| ==> rs'[i] == rs[i];
    assert AllResponsesOk(site, rs');
    assert KeysCreated(rs', es);
    forall i | 0 <= i < |rs'| && rs'[i].issueType == "Epic"
      ensures TasksPrecede(rs', i)
    {
      if i < |rs| {
        TasksPrecedeExtend(rs, epic, i);
      } else {
        EpicAfterChildren(rs, base, epic);
      }
    }
  }

  /** Appending a response keeps an earlier epic's tasks before it. */
  lemma TasksPrecedeExtend(rs: seq<TaskResponse>, x: TaskResponse, i: nat)
    requires i < |rs| && TasksPrecede(rs, i)
    ensures TasksPrecede(rs + [x], i)
  {
    forall j | 0 <= j < |rs|
      ensures (rs + [x])[j] == rs[j]
    {
    }
  }

  /** An epic appended right after the responses of its tasks follows them. */
  lemma EpicAfterChildren(rs: seq<TaskResponse>, base: nat, epic: TaskResponse)
    requires ChildrenAt(rs, base, epic.issueKey, epic.childKeys)
    ensures TasksPrecede(rs + [epic], |rs|)
  {
    var rs' := rs + [epic];
    var i := |rs|;
    var n := |epic.childKeys|;
    assert rs'[i] == epic && i - n == base;
    forall k | 0 <= k < n
      ensures IsTaskOf(rs'[i - n + k], rs'[i].childKeys[k], rs'[i].issueKey)
    {
      assert i - n + k == base + k;
      assert rs'[base + k] == rs[base + k];
    }
  }

  // ---------------------------------------------------------------------------
  // The calls a pass makes, as functions of the LLM response
  // ---------------------------------------------------------------------------

  predicate AllObjects<T>(xs: seq<Entry<T>>) {
    forall j :: 0 <= j < |xs| ==> xs[j].Obj?
  }

  /** A loop whose body calls `.get` on each element: each object contributes f of
      its fields, in order; the first element that is not an object contributes g
      of its type name and ends the loop with its AttributeError. */
  function UntilScalar<T, U>(xs: seq<Entry<T>>, f: T -> seq<U>, g: string -> seq<U>): seq<U>
    decreases |xs|
  {
    if xs == [] then []
    else match xs[0]
      case Scalar(t) => g(t)
      case Obj(x) => f(x) + UntilScalar(xs[1..], f, g)
  }

  /** A loop that skips the elements that are not objects. */
  function SkipScalars<T, U>(xs: seq<Entry<T>>, f: T -> seq<U>): seq<U>
    decreases |xs|
  {
    if xs == [] then []
    else match xs[0]
      case Scalar(_) => SkipScalars(xs[1..], f)
      case Obj(x) => f(x) + SkipScalars(xs[1..], f)
  }

  lemma {:induction false} UntilScalarAppend<T, U>(a: seq<Entry<T>>, b: seq<Entry<T>>, f: T -> seq<U>, g: string -> seq<U>)
    requires AllObjects(a)
    ensures UntilScalar(a + b, f, g) == UntilScalar(a, f, g) + UntilScalar(b, f, g)
    decreases |a|
  {
    if a != [] {
      assert (a + b)[0] == a[0];
      assert (a + b)[1..] == a[1..] + b;
      assert forall j :: 0 <= j < |a[1..]| ==> a[1..][j] == a[j + 1];
      UntilScalarAppend(a[1..], b, f, g);
      var x := a[0].fields;
      calc {
        UntilScalar(a + b, f, g);
        f(x) + UntilScalar(a[1..] + b, f, g);
        f(x) + (UntilScalar(a[1..], f, g) + UntilScalar(b, f, g));
        (f(x) + UntilScalar(a[1..], f, g)) + UntilScalar(b, f, g);
      }
    } else {
      assert a + b == b;
    }
  }

  lemma {:induction false} SkipScalarsAppend<T, U>(a: seq<Entry<T>>, b: seq<Entry<T>>, f: T -> seq<U>)
    ensures SkipScalars(a + b, f) == SkipScalars(a, f) + SkipScalars(b, f)
    decreases |a|
  {
    if a != [] {
      assert (a + b)[0] == a[0];
      assert (a + b)[1..] == a[1..] + b;
      SkipScalarsAppend(a[1..], b, f);
      if a[0].Obj? {
        var x := a[0].fields;
        assert f(x) + (SkipScalars(a[1..], f) + SkipScalars(b, f)) == (f(x) + SkipScalars(a[1..], f)) + SkipScalars(b, f);
      }
    } else {
      assert a + b == b;
    }
  }

  lemma Associative<U>(a: seq<U>, b: seq<U>, c: seq<U>)
    ensures a + b + c == a + (b + c)
  {
  }

  /** One more turn of an `UntilScalar` loop. */
  lemma UntilScalarNext<T, U>(xs: seq<Entry<T>>, i: nat, f: T -> seq<U>, g: string -> seq<U>)
    requires i < |xs| && AllObjects(xs[..i])
    ensures xs[i].Obj? ==> AllObjects(xs[..i + 1])
    ensures xs[i].Obj? ==> UntilScalar(xs[..i + 1], f, g) == UntilScalar(xs[..i], f, g) + f(xs[i].fields)
    ensures xs[i].Scalar? ==> !AllObjects(xs) && UntilScalar(xs, f, g) == UntilScalar(xs[..i], f, g) + g(xs[i].typeName)
    ensures xs[i].Scalar? && g(xs[i].typeName) == [] ==> UntilScalar(xs, f, g) == UntilScalar(xs[..i], f, g)
  {
    assert xs[..i + 1] == xs[..i] + [xs[i]];
    assert xs == xs[..i] + xs[i..];
    assert xs[i..][0] == xs[i];
    UntilScalarAppend(xs[..i], [xs[i]], f, g);
    UntilScalarAppend(xs[..i], xs[i..], f, g);
    assert [xs[i]][1..] == [];
  }

  /** One more turn of a `SkipScalars` loop. */
  lemma SkipScalarsNext<T, U>(xs: seq<Entry<T>>, i: nat, f: T -> seq<U>)
    requires i < |xs|
    ensures SkipScalars(xs[..i + 1], f) == SkipScalars(xs[..i], f) + (if xs[i].Obj? then f(xs[i].fields) else [])
  {
    assert xs[..i + 1] == xs[..i] + [xs[i]];
    SkipScalarsAppend(xs[..i], [xs[i]], f);
    assert [xs[i]][1..] == [];
  }

  /** The recorded call that posts the payload built for q. */
  function CallOf(kind: Kind, q: IssueRequest, env: Env): Event {
    var p := PayloadOf(env.site, q);
    Called(kind, p, env.post(p))
  }

  function MalformedEvent(typeName: string): seq<Event> {
    [Malformed(typeName)]
  }

  function Nothing<U>(typeName: string): seq<U> {
    []
  }

  function SubtaskCallOf(s: SubtaskData, standalone: bool, priority: Option<string>, taskKey: string, env: Env): Event {
    CallOf(SubtaskKind, SubtaskRequest(s, standalone, taskKey, priority, env), env)
  }

  function SubtaskEvents(standalone: bool, priority: Option<string>, taskKey: string, env: Env): SubtaskData -> seq<Event> {
    s => [SubtaskCallOf(s, standalone, priority, taskKey, env)]
  }

  /** The key a subtask's call returned, if it went through. */
  function SubtaskKeys(standalone: bool, priority: Option<string>, taskKey: string, env: Env): SubtaskData -> seq<string> {
    s => var c := SubtaskCallOf(s, standalone, priority, taskKey, env);
         if c.reply.Ok? then [c.reply.value] else []
  }

  /** The error a subtask's call added, if it failed. */
  function SubtaskErrors(standalone: bool, priority: Option<string>, taskKey: string, env: Env): SubtaskData -> seq<string> {
    s => var c := SubtaskCallOf(s, standalone, priority, taskKey, env);
         if c.reply.Err? then [Failed("subtask", s.title.GetOr("unknown"), c.reply.message)] else []
  }

  /** The subtask calls after a task's own call: made only when that call went
      through, create_subtasks is on and the task has subtasks. */
  function SubtaskPhase(subs: seq<Entry<SubtaskData>>, standalone: bool, priority: Option<string>,
                        taskReply: Result<string>, env: Env): seq<Event> {
    if taskReply.Ok? && env.createSubtasks && subs != [] then
      UntilScalar(subs, SubtaskEvents(standalone, priority, taskReply.value, env), MalformedEvent)
    else []
  }

  function EpicTaskCallOf(t: EpicTaskData, epicKey: string, env: Env): Event {
    CallOf(TaskKind, EpicTaskRequest(t, epicKey, env), env)
  }

  /** A task of an epic: its own call, then its subtasks'. */
  function EpicTaskEvents(t: EpicTaskData, epicKey: string, env: Env): seq<Event> {
    var c := EpicTaskCallOf(t, epicKey, env);
    [c] + SubtaskPhase(t.subtasks.GetOr([]), false, ParsePriority(t.priority), c.reply, env)
  }

  function EpicTaskEventsOf(epicKey: string, env: Env): EpicTaskData -> seq<Event> {
    t => EpicTaskEvents(t, epicKey, env)
  }

  function EpicCallOf(e: EpicData, env: Env): Event {
    CallOf(EpicKind, EpicRequest(e, env), env)
  }

  /** An epic: its own call, then, when it went through, the loop over its tasks. */
  function EpicEvents(e: EpicData, env: Env): seq<Event> {
    var c := EpicCallOf(e, env);
    [c] + if c.reply.Ok? then UntilScalar(e.tasks.GetOr([]), EpicTaskEventsOf(c.reply.value, env), MalformedEvent) else []
  }

  function EpicEventsOf(env: Env): EpicData -> seq<Event> {
    e => EpicEvents(e, env)
  }

  function ItemCallOf(t: TaskItem, env: Env): Event {
    CallOf(TaskKind, ItemRequest(t, env), env)
  }

  /** A standalone task: its own call, then its subtasks'. */
  function ItemEvents(t: TaskItem, env: Env): seq<Event> {
    var c := ItemCallOf(t, env);
    [c] + SubtaskPhase(t.subtasks.GetOr([]), true, ParsePriority(t.priority), c.reply, env)
  }

  function ItemEventsOf(env: Env): TaskItem -> seq<Event> {
    t => ItemEvents(t, env)
  }

  function ActionCallOf(a: ActionData, env: Env): Event {
    CallOf(ActionKind, ActionRequest(a, env), env)
  }

  function ActionEvents(env: Env): ActionData -> seq<Event> {
    a => [ActionCallOf(a, env)]
  }

  /** The task an action item's call created, if it went through. */
  function ActionResponses(env: Env): ActionData -> seq<TaskResponse> {
    a => var c := ActionCallOf(a, env);
         if c.reply.Ok? then [NewResponse(env.site, "Task", c.reply.value, None)] else []
  }

  /** The error an action item's call added, if it failed. */
  function ActionErrors(env: Env): ActionData -> seq<string> {
    a => var c := ActionCallOf(a, env);
         if c.reply.Err? then [Failed("action item", Take(a.description.GetOr("unknown"), 50), c.reply.message)] else []
  }

  /** The task_breakdown and standalone_tasks lists, in the order they are handled. */
  function StandaloneItems(llm: LlmResponse): seq<Entry<TaskItem>> {
    llm.taskBreakdown.GetOr([]) + llm.standaloneTasks.GetOr([])
  }

  /** Every call and malformed element of a pass, in order: the epic loop; unless it
      aborted, the standalone tasks and then the action-item loop. */
  function PassEvents(llm: LlmResponse, env: Env): seq<Event> {
    var epics := llm.epics.GetOr([]);
    UntilScalar(epics, EpicEventsOf(env), MalformedEvent)
    + if AllObjects(epics) then
        SkipScalars(StandaloneItems(llm), ItemEventsOf(env))
        + UntilScalar(llm.actionItems.GetOr([]), ActionEvents(env), MalformedEvent)
      else []
  }

  lemma PassEventsSplit(llm: LlmResponse, env: Env, start: seq<Event>)
    ensures var epics := llm.epics.GetOr([]);
      var ep := UntilScalar(epics, EpicEventsOf(env), MalformedEvent);
      && (AllObjects(epics) ==>
            start + PassEvents(llm, env) ==
            start + ep + SkipScalars(StandaloneItems(llm), ItemEventsOf(env))
            + UntilScalar(llm.actionItems.GetOr([]), ActionEvents(env), MalformedEvent))
      && (!AllObjects(epics) ==> start + PassEvents(llm, env) == start + ep)
  {
    var epics := llm.epics.GetOr([]);
    var ep := UntilScalar(epics, EpicEventsOf(env), MalformedEvent);
    var items := SkipScalars(StandaloneItems(llm), ItemEventsOf(env));
    var actions := UntilScalar(llm.actionItems.GetOr([]), ActionEvents(env), MalformedEvent);
    if AllObjects(epics) {
      Associative(ep, items, actions);
      Associative(start, ep, items + actions);
      Associative(start + ep, items, actions);
    } else {
      assert PassEvents(llm, env) == ep + [];
    }
  }

  /** The pass aborts: an epic or an action item it reaches is not an object. */
  predicate PassAborts(llm: LlmResponse) {
    !AllObjects(llm.epics.GetOr([])) || !AllObjects(llm.actionItems.GetOr([]))
  }

  /** The element at i of a loop that reaches it: the events of the elements before
      it, then its own, then the rest. */
  lemma UntilScalarAt<T, U>(xs: seq<Entry<T>>, i: nat, f: T -> seq<U>, g: string -> seq<U>)
    requires i < |xs| && AllObjects(xs[..i]) && xs[i].Obj?
    ensures UntilScalar(xs, f, g) == UntilScalar(xs[..i], f, g) + (f(xs[i].fields) + UntilScalar(xs[i + 1..], f, g))
  {
    var pre, rest := xs[..i], xs[i..];
    assert xs == pre + rest;
    UntilScalarAppend(pre, rest, f, g);
    assert rest[0] == xs[i];
    assert rest[1..] == xs[i + 1..];
    UntilScalarCons(rest, f, g);
  }

  lemma UntilScalarCons<T, U>(xs: seq<Entry<T>>, f: T -> seq<U>, g: string -> seq<U>)
    requires xs != [] && xs[0].Obj?
    ensures UntilScalar(xs, f, g) == f(xs[0].fields) + UntilScalar(xs[1..], f, g)
  {
  }

  lemma SkipScalarsAt<T, U>(xs: seq<Entry<T>>, i: nat, f: T -> seq<U>)
    requires i < |xs| && xs[i].Obj?
    ensures SkipScalars(xs, f) == SkipScalars(xs[..i], f) + (f(xs[i].fields) + SkipScalars(xs[i + 1..], f))
  {
    assert xs == xs[..i] + xs[i..];
    SkipScalarsAppend(xs[..i], xs[i..], f);
    assert xs[i..][0] == xs[i];
    assert xs[i..][1..] == xs[i + 1..];
  }

  /** The element right after a prefix is the head of what follows it. */
  lemma HeadAfter<U>(a: seq<U>, x: U, b: seq<U>, c: seq<U>)
    ensures |a| < |a + ([x] + b) + c| && (a + ([x] + b) + c)[|a|] == x
  {
    assert a + ([x] + b) + c == a + ([x] + (b + c));
  }

  /** Every epic up to the first element that is not an object is posted, right after
      the calls made for the epics before it, whatever became of those. */
  lemma {:induction false} EpicCalled(llm: LlmResponse, env: Env, i: nat)
    requires var epics := llm.epics.GetOr([]); i < |epics| && AllObjects(epics[..i]) && epics[i].Obj?
    ensures var epics := llm.epics.GetOr([]);
      var before := UntilScalar(epics[..i], EpicEventsOf(env), MalformedEvent);
      |before| < |PassEvents(llm, env)| && PassEvents(llm, env)[|before|] == EpicCallOf(epics[i].fields, env)
  {
    var epics := llm.epics.GetOr([]);
    var f := EpicEventsOf(env);
    UntilScalarAt(epics, i, f, MalformedEvent);
    var e := epics[i].fields;
    var c := EpicCallOf(e, env);
    var before := UntilScalar(epics[..i], f, MalformedEvent);
    var after := UntilScalar(epics[i + 1..], f, MalformedEvent);
    var tasks := if c.reply.Ok? then UntilScalar(e.tasks.GetOr([]), EpicTaskEventsOf(c.reply.value, env), MalformedEvent) else [];
    assert f(e) == [c] + tasks;
    var rest := if AllObjects(epics) then
        SkipScalars(StandaloneItems(llm), ItemEventsOf(env))
        + UntilScalar(llm.actionItems.GetOr([]), ActionEvents(env), MalformedEvent)
      else [];
    assert PassEvents(llm, env) == before + ([c] + tasks + after) + rest;
    Associative([c], tasks, after);
    HeadAfter(before, c, tasks + after, rest);
  }

  /** Every task of a created epic, up to the first element that is not an object, is
      posted under the epic's key. */
  lemma {:induction false} EpicTaskCalled(e: EpicData, env: Env, i: nat)
    requires EpicCallOf(e, env).reply.Ok?
    requires var tasks := e.tasks.GetOr([]); i < |tasks| && AllObjects(tasks[..i]) && tasks[i].Obj?
    ensures EpicTaskCallOf(e.tasks.GetOr([])[i].fields, EpicCallOf(e, env).reply.value, env) in EpicEvents(e, env)
  {
    var tasks := e.tasks.GetOr([]);
    var c := EpicCallOf(e, env);
    var f := EpicTaskEventsOf(c.reply.value, env);
    UntilScalarAt(tasks, i, f, MalformedEvent);
    var t := tasks[i].fields;
    var tc := EpicTaskCallOf(t, c.reply.value, env);
    var subs := SubtaskPhase(t.subtasks.GetOr([]), false, ParsePriority(t.priority), tc.reply, env);
    assert f(t) == [tc] + subs;
    var before := UntilScalar(tasks[..i], f, MalformedEvent);
    var after := UntilScalar(tasks[i + 1..], f, MalformedEvent);
    assert EpicEvents(e, env) == [c] + (before + ([tc] + subs + after));
    assert tc in [tc] + subs + after;
  }

  /** When no epic aborts the pass, every standalone task that is an object is posted. */
  lemma {:induction false} StandaloneTaskCalled(llm: LlmResponse, env: Env, i: nat)
    requires AllObjects(llm.epics.GetOr([]))
    requires var items := StandaloneItems(llm); i < |items| && items[i].Obj?
    ensures ItemCallOf(StandaloneItems(llm)[i].fields, env) in PassEvents(llm, env)
  {
    var items := StandaloneItems(llm);
    var f := ItemEventsOf(env);
    SkipScalarsAt(items, i, f);
    var t := items[i].fields;
    var c := ItemCallOf(t, env);
    var subs := SubtaskPhase(t.subtasks.GetOr([]), true, ParsePriority(t.priority), c.reply, env);
    assert f(t) == [c] + subs;
    var epicsPart := UntilScalar(llm.epics.GetOr([]), EpicEventsOf(env), MalformedEvent);
    var before := SkipScalars(items[..i], f);
    var after := SkipScalars(items[i + 1..], f);
    var actionsPart := UntilScalar(llm.actionItems.GetOr([]), ActionEvents(env), MalformedEvent);
    assert PassEvents(llm, env) == epicsPart + (before + ([c] + subs + after) + actionsPart);
    assert c in [c] + subs + after;
  }

  /** When no epic aborts the pass, every action item up to the first element that is
      not an object is posted. */
  lemma {:induction false} ActionItemCalled(llm: LlmResponse, env: Env, i: nat)
    requires AllObjects(llm.epics.GetOr([]))
    requires var items := llm.actionItems.GetOr([]); i < |items| && AllObjects(items[..i]) && items[i].Obj?
    ensures ActionCallOf(llm.actionItems.GetOr([])[i].fields, env) in PassEvents(llm, env)
  {
    var items := llm.actionItems.GetOr([]);
    var f := ActionEvents(env);
    UntilScalarAt(items, i, f, MalformedEvent);
    var c := ActionCallOf(items[i].fields, env);
    assert f(items[i].fields) == [c];
    var epicsPart := UntilScalar(llm.epics.GetOr([]), EpicEventsOf(env), MalformedEvent);
    var itemsPart := SkipScalars(StandaloneItems(llm), ItemEventsOf(env));
    var before := UntilScalar(items[..i], f, MalformedEvent);
    var after := UntilScalar(items[i + 1..], f, MalformedEvent);
    assert PassEvents(llm, env) == epicsPart + (itemsPart + (before + ([c] + after)));
    assert c in [c] + after;
  }

  /** Action items that are all objects each become exactly one task or one error. */
  lemma {:induction false} ActionItemsAccounted(items: seq<Entry<ActionData>>, env: Env)
    requires AllObjects(items)
    ensures |UntilScalar(items, ActionResponses(env), Nothing)| + |UntilScalar(items, ActionErrors(env), Nothing)| == |items|
    decreases |items|
  {
    if items != [] {
      assert AllObjects(items[1..]) by {
        assert forall j :: 0 <= j < |items[1..]| ==> items[1..][j] == items[j + 1];
      }
      ActionItemsAccounted(items[1..], env);
    }
  }

  /** Subtasks that are all objects each give their task exactly one key or one error. */
  lemma {:induction false} SubtasksAccounted(subs: seq<Entry<SubtaskData>>, standalone: bool, priority: Option<string>,
                                             taskKey: string, env: Env)
    requires AllObjects(subs)
    ensures |UntilScalar(subs, SubtaskKeys(standalone, priority, taskKey, env), Nothing)|
          + |UntilScalar(subs, SubtaskErrors(standalone, priority, taskKey, env), Nothing)| == |subs|
    decreases |subs|
  {
    if subs != [] {
      assert AllObjects(subs[1..]) by {
        assert forall j :: 0 <= j < |subs[1..]| ==> subs[1..][j] == subs[j + 1];
      }
      SubtasksAccounted(subs[1..], standalone, priority, taskKey, env);
    }
  }

  /** CreateJiraTasksResponse, which the pass fills in place. */
  class TasksResult {
    var success: bool
    var createdTasks: seq<TaskResponse>
    var errors: seq<string>
    const llmResponse: LlmResponse
    /** The calls and malformed elements so far. */
    ghost var events: seq<Event>

    /** What holds between steps, apart from the error count. */
    ghost predicate Consistent(env: Env)
      reads this
    {
      && AllResponsesOk(env.site, createdTasks)
      && EpicsFollowTasks(createdTasks)
      && KeysCreated(createdTasks, events)
      && (!env.createSubtasks ==> forall i :: 0 <= i < |events| ==> !SubtaskCall(events[i]))
    }

    /** One error per fault. */
    ghost predicate Counted()
      reads this
    {
      |errors| == Faults(events)
    }

    constructor(llmResponse: LlmResponse)
      ensures success && createdTasks == [] && errors == [] && events == []
      ensures this.llmResponse == llmResponse
    {
      success := true;
      createdTasks := [];
      errors := [];
      this.llmResponse := llmResponse;
      events := [];
    }

    /** A call to create_issue, recorded. */
    method Create(kind: Kind, q: IssueRequest, env: Env) returns (r: Result<string>)
      requires Consistent(env) && (!env.createSubtasks ==> kind != SubtaskKind)
      modifies this
      ensures events == old(events) + [Called(kind, PayloadOf(env.site, q), r)]
      ensures r == env.post(PayloadOf(env.site, q))
      ensures events == old(events) + [CallOf(kind, q, env)] && r == CallOf(kind, q, env).reply
      ensures Consistent(env)
      ensures createdTasks == old(createdTasks) && errors == old(errors) && success == old(success)
      ensures Faults(events) == Faults(old(events)) + (if r.Err? then 1 else 0)
      ensures Created(old(events), true) <= Created(events, true) && Created(old(events), false) <= Created(events, false)
      ensures r.Ok? ==> r.value in Created(events, kind == SubtaskKind)
    {
      var payload;
      r, payload := CreateIssue(env.site, q, env.post);
      var e := Called(kind, payload, r);
      EventAppend(createdTasks, events, e);
      events := events + [e];
    }

    /** An element that is not an object, recorded; its AttributeError propagates. */
    method NoteMalformed(typeName: string, env: Env) returns (message: string)
      requires Consistent(env)
      modifies this
      ensures events == old(events) + [Malformed(typeName)] && message == Meetings.NoGet(typeName)
      ensures Consistent(env)
      ensures createdTasks == old(createdTasks) && errors == old(errors) && success == old(success)
      ensures Faults(events) == Faults(old(events)) + 1
      ensures Created(old(events), true) == Created(events, true) && Created(old(events), false) == Created(events, false)
    {
      var e := Malformed(typeName);
      EventAppend(createdTasks, events, e);
      events := events + [e];
      message := Meetings.NoGet(typeName);
    }

    /** A task's response appended to created_tasks. */
    method RecordTask(resp: TaskResponse, env: Env)
      requires Consistent(env)
      requires ResponseOk(env.site, resp) && resp.issueType == "Task" && resp.issueKey in Created(events, false)
      requires forall k :: 0 <= k < |resp.childKeys| ==> resp.childKeys[k] in Created(events, true)
      modifies this
      ensures createdTasks == old(createdTasks) + [resp]
      ensures events == old(events) && errors == old(errors) && success == old(success)
      ensures Consistent(env)
    {
      AppendTask(createdTasks, events, env.site, resp);
      createdTasks := createdTasks + [resp];
    }

    /** An epic's response appended after the responses of its tasks. */
    method RecordEpic(epic: TaskResponse, base: nat, env: Env)
      requires Consistent(env)
      requires ResponseOk(env.site, epic) && epic.issueType == "Epic" && epic.issueKey in Created(events, false)
      requires ChildrenAt(createdTasks, base, epic.issueKey, epic.childKeys)
      modifies this
      ensures createdTasks == old(createdTasks) + [epic]
      ensures events == old(events) && errors == old(errors) && success == old(success)
      ensures Consistent(env)
    {
      AppendEpic(createdTasks, events, env.site, base, epic);
      createdTasks := createdTasks + [epic];
    }

    method AddError(message: string)
      modifies this
      ensures errors == old(errors) + [message]
      ensures createdTasks == old(createdTasks) && events == old(events) && success == old(success)
    {
      errors := errors + [message];
    }

    /** The subtask loop of a task: each created subtask's key and URL go to the
        task's response; a failed one adds an error; an element that is not an
        object ends the loop with its exception. */
    method AddSubtasks(subs: seq<Entry<SubtaskData>>, standalone: bool, priority: Option<string>, env: Env,
                       resp: TaskResponse)
      returns (out: TaskResponse, raised: Option<string>)
      requires env.createSubtasks && Consistent(env) && Counted()
      requires ResponseOk(env.site, resp)
      requires forall k :: 0 <= k < |resp.childKeys| ==> resp.childKeys[k] in Created(events, true)
      modifies this
      ensures events == old(events) + UntilScalar(subs, SubtaskEvents(standalone, priority, resp.issueKey, env), MalformedEvent)
      ensures out.childKeys == resp.childKeys + UntilScalar(subs, SubtaskKeys(standalone, priority, resp.issueKey, env), Nothing)
      ensures errors == old(errors) + UntilScalar(subs, SubtaskErrors(standalone, priority, resp.issueKey, env), Nothing)
      ensures raised.Some? <==> !AllObjects(subs)
      ensures Consistent(env) && createdTasks == old(createdTasks) && success == old(success)
      ensures raised.None? ==> Counted()
      ensures raised.Some? ==> |errors| + 1 == Faults(events) && LastMalformed(events, raised.value)
      ensures out == resp.(childKeys := out.childKeys, childUrls := out.childUrls)
      ensures ResponseOk(env.site, out)
      ensures forall k :: 0 <= k < |out.childKeys| ==> out.childKeys[k] in Created(events, true)
      ensures Created(old(events), false) <= Created(events, false)
    {
      ghost var calls := SubtaskEvents(standalone, priority, resp.issueKey, env);
      ghost var keys := SubtaskKeys(standalone, priority, resp.issueKey, env);
      ghost var failures := SubtaskErrors(standalone, priority, resp.issueKey, env);
      out := resp;
      for i := 0 to |subs|
        invariant AllObjects(subs[..i])
        invariant events == old(events) + UntilScalar(subs[..i], calls, MalformedEvent)
        invariant out.childKeys == resp.childKeys + UntilScalar(subs[..i], keys, Nothing)
        invariant errors == old(errors) + UntilScalar(subs[..i], failures, Nothing)
        invariant Consistent(env) && Counted() && createdTasks == old(createdTasks) && success == old(success)
        invariant out == resp.(childKeys := out.childKeys, childUrls := out.childUrls)
        invariant ResponseOk(env.site, out)
        invariant forall k :: 0 <= k < |out.childKeys| ==> out.childKeys[k] in Created(events, true)
        invariant Created(old(events), false) <= Created(events, false)
      {
        UntilScalarNext(subs, i, calls, MalformedEvent);
        UntilScalarNext(subs, i, keys, Nothing);
        UntilScalarNext(subs, i, failures, Nothing);
        match subs[i] {
          case Scalar(t) =>
            var m := NoteMalformed(t, env);
            Associative(old(events), UntilScalar(subs[..i], calls, MalformedEvent), MalformedEvent(t));
            return out, Some(m);
          case Obj(s) =>
            out := AddSubtask(s, standalone, priority, env, out);
            Associative(old(events), UntilScalar(subs[..i], calls, MalformedEvent), calls(s));
            Associative(resp.childKeys, UntilScalar(subs[..i], keys, Nothing), keys(s));
            Associative(old(errors), UntilScalar(subs[..i], failures, Nothing), failures(s));
        }
      }
      assert subs[..|subs|] == subs;
      raised := None;
    }

    /** A created task's subtasks: the loop runs when create_subtasks is on and the
        task has some. */
    method TaskSubtasks(subs: seq<Entry<SubtaskData>>, standalone: bool, priority: Option<string>, env: Env,
                        resp: TaskResponse)
      returns (out: TaskResponse, raised: Option<string>)
      requires Consistent(env) && Counted()
      requires ResponseOk(env.site, resp) && resp.childKeys == []
      modifies this
      ensures events == old(events) + SubtaskPhase(subs, standalone, priority, Ok(resp.issueKey), env)
      ensures raised.Some? <==> env.createSubtasks && !AllObjects(subs)
      ensures Consistent(env) && createdTasks == old(createdTasks) && success == old(success)
      ensures raised.None? ==> Counted()
      ensures raised.Some? ==> |errors| + 1 == Faults(events) && LastMalformed(events, raised.value)
      ensures out == resp.(childKeys := out.childKeys, childUrls := out.childUrls)
      ensures ResponseOk(env.site, out)
      ensures forall k :: 0 <= k < |out.childKeys| ==> out.childKeys[k] in Created(events, true)
      ensures Created(old(events), false) <= Created(events, false)
    {
      out, raised := resp, None;
      if env.createSubtasks && subs != [] {
        out, raised := AddSubtasks(subs, standalone, priority, env, resp);
      }
    }

    /** One subtask: its key and URL join its parent's response, or one error is added. */
    method AddSubtask(s: SubtaskData, standalone: bool, priority: Option<string>, env: Env, resp: TaskResponse)
      returns (out: TaskResponse)
      requires env.createSubtasks && Consistent(env) && Counted()
      requires ResponseOk(env.site, resp)
      requires forall k :: 0 <= k < |resp.childKeys| ==> resp.childKeys[k] in Created(events, true)
      modifies this
      ensures var c := SubtaskCallOf(s, standalone, priority, resp.issueKey, env);
        && events == old(events) + [c]
        && (c.reply.Ok? ==> out.childKeys == resp.childKeys + [c.reply.value] && errors == old(errors))
        && (c.reply.Err? ==> out == resp && errors == old(errors) + [Failed("subtask", s.title.GetOr("unknown"), c.reply.message)])
      ensures events == old(events) + SubtaskEvents(standalone, priority, resp.issueKey, env)(s)
      ensures out.childKeys == resp.childKeys + SubtaskKeys(standalone, priority, resp.issueKey, env)(s)
      ensures errors == old(errors) + SubtaskErrors(standalone, priority, resp.issueKey, env)(s)
      ensures Consistent(env) && Counted() && createdTasks == old(createdTasks) && success == old(success)
      ensures out == resp.(childKeys := out.childKeys, childUrls := out.childUrls)
      ensures ResponseOk(env.site, out)
      ensures forall k :: 0 <= k < |out.childKeys| ==> out.childKeys[k] in Created(events, true)
      ensures Created(old(events), false) <= Created(events, false)
    {
      var r := Create(SubtaskKind, SubtaskRequest(s, standalone, resp.issueKey, priority, env), env);
      if r.Err? {
        AddError(Failed("subtask", s.title.GetOr("unknown"), r.message));
        out := resp;
      } else {
        out := WithChild(env.site, resp, r.value);
      }
    }

    /** One task of an epic: when it and its subtasks go through, its response is
        appended to created_tasks and its key and URL to the epic's response. */
    method AddEpicTask(t: EpicTaskData, epic: TaskResponse, base: nat, env: Env) returns (out: TaskResponse)
      requires Consistent(env) && Counted()
      requires ResponseOk(env.site, epic) && epic.issueKey in Created(events, false)
      requires ChildrenAt(createdTasks, base, epic.issueKey, epic.childKeys)
      modifies this
      ensures events == old(events) + EpicTaskEvents(t, epic.issueKey, env)
      ensures events == old(events) + EpicTaskEventsOf(epic.issueKey, env)(t)
      ensures var c := EpicTaskCallOf(t, epic.issueKey, env);
        c.reply.Err? ==> out == epic && createdTasks == old(createdTasks)
                         && errors == old(errors) + [Failed("task", t.summary.GetOr("unknown"), c.reply.message)]
      ensures Consistent(env) && Counted() && success == old(success)
      ensures |old(createdTasks)| <= |createdTasks| && createdTasks[..|old(createdTasks)|] == old(createdTasks)
      ensures out == epic.(childKeys := out.childKeys, childUrls := out.childUrls) && ResponseOk(env.site, out)
      ensures out.issueKey in Created(events, false)
      ensures ChildrenAt(createdTasks, base, epic.issueKey, out.childKeys)
    {
      out := epic;
      var r := Create(TaskKind, EpicTaskRequest(t, epic.issueKey, env), env);
      ghost var c := EpicTaskCallOf(t, epic.issueKey, env);
      if r.Err? {
        AddError(Failed("task", t.summary.GetOr("unknown"), r.message));
        return;
      }
      var resp := NewResponse(env.site, "Task", r.value, Some(epic.issueKey));
      var sub;
      resp, sub := TaskSubtasks(t.subtasks.GetOr([]), false, ParsePriority(t.priority), env, resp);
      Associative(old(events), [c], SubtaskPhase(t.subtasks.GetOr([]), false, ParsePriority(t.priority), r, env));
      if sub.Some? {
        AddError(Failed("task", t.summary.GetOr("unknown"), sub.value));
        return;
      }
      RecordTask(resp, env);
      ChildrenAppend(old(createdTasks), base, epic.issueKey, epic.childKeys, resp);
      out := WithChild(env.site, epic, r.value);
    }

    /** The loop over an epic's tasks; an element that is not an object ends it with its
        exception. */
    method AddEpicTasks(tasks: seq<Entry<EpicTaskData>>, epic: TaskResponse, env: Env)
      returns (out: TaskResponse, raised: Option<string>)
      requires Consistent(env) && Counted()
      requires ResponseOk(env.site, epic) && epic.issueType == "Epic" && epic.childKeys == []
      requires epic.issueKey in Created(events, false)
      modifies this
      ensures events == old(events) + UntilScalar(tasks, EpicTaskEventsOf(epic.issueKey, env), MalformedEvent)
      ensures raised.Some? <==> !AllObjects(tasks)
      ensures Consistent(env) && success == old(success)
      ensures |old(createdTasks)| <= |createdTasks| && createdTasks[..|old(createdTasks)|] == old(createdTasks)
      ensures raised.None? ==> Counted()
      ensures raised.Some? ==> |errors| + 1 == Faults(events) && LastMalformed(events, raised.value)
      ensures out == epic.(childKeys := out.childKeys, childUrls := out.childUrls) && ResponseOk(env.site, out)
      ensures out.issueKey in Created(events, false)
      ensures ChildrenAt(createdTasks, |old(createdTasks)|, epic.issueKey, out.childKeys)
    {
      ghost var calls := EpicTaskEventsOf(epic.issueKey, env);
      var base := |createdTasks|;
      out := epic;
      for i := 0 to |tasks|
        invariant AllObjects(tasks[..i])
        invariant events == old(events) + UntilScalar(tasks[..i], calls, MalformedEvent)
        invariant Consistent(env) && Counted() && success == old(success)
        invariant |old(createdTasks)| <= |createdTasks| && createdTasks[..|old(createdTasks)|] == old(createdTasks)
        invariant out == epic.(childKeys := out.childKeys, childUrls := out.childUrls) && ResponseOk(env.site, out)
        invariant out.issueKey in Created(events, false)
        invariant ChildrenAt(createdTasks, base, epic.issueKey, out.childKeys)
      {
        UntilScalarNext(tasks, i, calls, MalformedEvent);
        match tasks[i] {
          case Scalar(t) =>
            var m := NoteMalformed(t, env);
            Associative(old(events), UntilScalar(tasks[..i], calls, MalformedEvent), MalformedEvent(t));
            return out, Some(m);
          case Obj(t) =>
            assert out.issueKey == epic.issueKey;
            out := AddEpicTask(t, out, base, env);
            Associative(old(events), UntilScalar(tasks[..i], calls, MalformedEvent), calls(t));
        }
      }
      assert tasks[..|tasks|] == tasks;
      raised := None;
    }

    /** The epic loop: an epic's response is appended after its tasks'; a failed
        epic adds one error; an element that is not an object aborts the pass. */
    method AddEpics(epics: seq<Entry<EpicData>>, env: Env) returns (raised: Option<string>)
      requires Consistent(env) && Counted()
      modifies this
      ensures events == old(events) + UntilScalar(epics, EpicEventsOf(env), MalformedEvent)
      ensures raised.Some? <==> !AllObjects(epics)
      ensures Consistent(env) && success == old(success)
      ensures raised.None? ==> Counted()
      ensures raised.Some? ==> |errors| + 1 == Faults(events) && LastMalformed(events, raised.value)
    {
      ghost var calls := EpicEventsOf(env);
      for i := 0 to |epics|
        invariant AllObjects(epics[..i])
        invariant events == old(events) + UntilScalar(epics[..i], calls, MalformedEvent)
        invariant Consistent(env) && Counted() && success == old(success)
      {
        UntilScalarNext(epics, i, calls, MalformedEvent);
        match epics[i] {
          case Scalar(t) =>
            var m := NoteMalformed(t, env);
            Associative(old(events), UntilScalar(epics[..i], calls, MalformedEvent), MalformedEvent(t));
            return Some(m);
          case Obj(e) =>
            AddEpic(e, env);
            Associative(old(events), UntilScalar(epics[..i], calls, MalformedEvent), calls(e));
        }
      }
      assert epics[..|epics|] == epics;
      raised := None;
    }

    /** One epic: created, then its tasks, then its response appended after theirs; one
        error when the epic or one of its elements fails. */
    method AddEpic(e: EpicData, env: Env)
      requires Consistent(env) && Counted()
      modifies this
      ensures events == old(events) + EpicEvents(e, env)
      ensures events == old(events) + EpicEventsOf(env)(e)
      ensures var c := EpicCallOf(e, env);
        c.reply.Err? ==> createdTasks == old(createdTasks)
                         && errors == old(errors) + [Failed("epic", e.name.GetOr("unknown"), c.reply.message)]
      ensures Consistent(env) && Counted() && success == old(success)
    {
      var r := Create(EpicKind, EpicRequest(e, env), env);
      ghost var c := EpicCallOf(e, env);
      if r.Err? {
        AddError(Failed("epic", e.name.GetOr("unknown"), r.message));
        assert EpicEvents(e, env) == [c] + [];
        return;
      }
      var epic := NewResponse(env.site, "Epic", r.value, None);
      var base := |createdTasks|;
      var out, sub := AddEpicTasks(e.tasks.GetOr([]), epic, env);
      Associative(old(events), [c], UntilScalar(e.tasks.GetOr([]), EpicTaskEventsOf(r.value, env), MalformedEvent));
      if sub.Some? {
        AddError(Failed("epic", e.name.GetOr("unknown"), sub.value));
      } else {
        RecordEpic(out, base, env);
      }
    }

    /** The loop over task_breakdown + standalone_tasks: elements that are not
        objects are skipped. */
    method AddStandaloneTasks(items: seq<Entry<TaskItem>>, env: Env)
      requires Consistent(env) && Counted()
      modifies this
      ensures events == old(events) + SkipScalars(items, ItemEventsOf(env))
      ensures Consistent(env) && Counted() && success == old(success)
    {
      ghost var calls := ItemEventsOf(env);
      for i := 0 to |items|
        invariant events == old(events) + SkipScalars(items[..i], calls)
        invariant Consistent(env) && Counted() && success == old(success)
      {
        SkipScalarsNext(items, i, calls);
        match items[i] {
          case Scalar(_) =>
          case Obj(t) =>
            AddStandaloneTask(t, env);
            Associative(old(events), SkipScalars(items[..i], calls), calls(t));
        }
      }
      assert items[..|items|] == items;
    }

    /** One standalone task: created with its subtasks, appended to created_tasks when
        all of them go through, one error otherwise. */
    method AddStandaloneTask(t: TaskItem, env: Env)
      requires Consistent(env) && Counted()
      modifies this
      ensures events == old(events) + ItemEvents(t, env)
      ensures events == old(events) + ItemEventsOf(env)(t)
      ensures var c := ItemCallOf(t, env);
        c.reply.Err? ==> createdTasks == old(createdTasks) && errors == old(errors) + [Failed("task", ItemName(t), c.reply.message)]
      ensures Consistent(env) && Counted() && success == old(success)
    {
      var r := Create(TaskKind, ItemRequest(t, env), env);
      ghost var c := ItemCallOf(t, env);
      if r.Err? {
        AddError(Failed("task", ItemName(t), r.message));
        return;
      }
      var resp := NewResponse(env.site, "Task", r.value, None);
      var sub;
      resp, sub := TaskSubtasks(t.subtasks.GetOr([]), true, ParsePriority(t.priority), env, resp);
      Associative(old(events), [c], SubtaskPhase(t.subtasks.GetOr([]), true, ParsePriority(t.priority), r, env));
      if sub.Some? {
        AddError(Failed("task", ItemName(t), sub.value));
      } else {
        RecordTask(resp, env);
      }
    }

    /** The action-item loop: each becomes a task; an element that is not an object
        aborts the pass. */
    method AddActionItems(items: seq<Entry<ActionData>>, env: Env) returns (raised: Option<string>)
      requires Consistent(env) && Counted()
      modifies this
      ensures events == old(events) + UntilScalar(items, ActionEvents(env), MalformedEvent)
      ensures createdTasks == old(createdTasks) + UntilScalar(items, ActionResponses(env), Nothing)
      ensures errors == old(errors) + UntilScalar(items, ActionErrors(env), Nothing)
      ensures raised.Some? <==> !AllObjects(items)
      ensures Consistent(env) && success == old(success)
      ensures raised.None? ==> Counted()
      ensures raised.Some? ==> |errors| + 1 == Faults(events) && LastMalformed(events, raised.value)
    {
      ghost var calls := ActionEvents(env);
      ghost var tasks := ActionResponses(env);
      ghost var failures := ActionErrors(env);
      for i := 0 to |items|
        invariant AllObjects(items[..i])
        invariant events == old(events) + UntilScalar(items[..i], calls, MalformedEvent)
        invariant createdTasks == old(createdTasks) + UntilScalar(items[..i], tasks, Nothing)
        invariant errors == old(errors) + UntilScalar(items[..i], failures, Nothing)
        invariant Consistent(env) && Counted() && success == old(success)
      {
        UntilScalarNext(items, i, calls, MalformedEvent);
        UntilScalarNext(items, i, tasks, Nothing);
        UntilScalarNext(items, i, failures, Nothing);
        match items[i] {
          case Scalar(t) =>
            var m := NoteMalformed(t, env);
            Associative(old(events), UntilScalar(items[..i], calls, MalformedEvent), MalformedEvent(t));
            return Some(m);
          case Obj(a) =>
            AddActionItem(a, env);
            Associative(old(events), UntilScalar(items[..i], calls, MalformedEvent), calls(a));
            Associative(old(createdTasks), UntilScalar(items[..i], tasks, Nothing), tasks(a));
            Associative(old(errors), UntilScalar(items[..i], failures, Nothing), failures(a));
        }
      }
      assert items[..|items|] == items;
      raised := None;
    }

    /** One action item: a task appended to created_tasks, or one error. */
    method AddActionItem(a: ActionData, env: Env)
      requires Consistent(env) && Counted()
      modifies this
      ensures var c := ActionCallOf(a, env);
        && events == old(events) + [c]
        && (c.reply.Ok? ==> createdTasks == old(createdTasks) + [NewResponse(env.site, "Task", c.reply.value, None)]
                            && errors == old(errors))
        && (c.reply.Err? ==> createdTasks == old(createdTasks)
                             && errors == old(errors) + [Failed("action item", Take(a.description.GetOr("unknown"), 50), c.reply.message)])
      ensures events == old(events) + ActionEvents(env)(a)
      ensures createdTasks == old(createdTasks) + ActionResponses(env)(a)
      ensures errors == old(errors) + ActionErrors(env)(a)
      ensures Consistent(env) && Counted() && success == old(success)
    {
      var r := Create(ActionKind, ActionRequest(a, env), env);
      if r.Err? {
        AddError(Failed("action item", Take(a.description.GetOr("unknown"), 50), r.message));
      } else {
        RecordTask(NewResponse(env.site, "Task", r.value, None), env);
      }
    }

    /** The three loops of a pass; the AttributeError of an element that is not an
        object ends it. */
    method RunLists(env: Env) returns (raised: Option<string>)
      requires Consistent(env) && Counted()
      modifies this
      ensures events == old(events) + PassEvents(llmResponse, env)
      ensures raised.Some? <==> PassAborts(llmResponse)
      ensures Consistent(env) && success == old(success)
      ensures raised.None? ==> Counted()
      ensures raised.Some? ==> |errors| + 1 == Faults(events) && LastMalformed(events, raised.value)
    {
      PassEventsSplit(llmResponse, env, events);
      raised := AddEpics(llmResponse.epics.GetOr([]), env);
      if raised.None? {
        AddStandaloneTasks(StandaloneItems(llmResponse), env);
        raised := AddActionItems(llmResponse.actionItems.GetOr([]), env);
      }
    }

    /** The body of create_jira_tasks_from_llm_response. */
    method Process(env: Env) returns (ghost aborted: bool)
      requires Consistent(env) && Counted() && success
      modifies this
      ensures events == old(events) + PassEvents(llmResponse, env)
      ensures aborted <==> PassAborts(llmResponse)
      ensures Consistent(env) && Counted()
      ensures !success <==> aborted || (errors != [] && createdTasks == [])
      ensures aborted ==>
        (errors != [] && events != [] && events[|events| - 1].Malformed?
         && errors[|errors| - 1] == AbortPrefix + Meetings.NoGet(events[|events| - 1].typeName))
    {
      var raised := RunLists(env);
      aborted := raised.Some?;
      if raised.Some? {
        success := false;
        errors := errors + [AbortPrefix + raised.value];
      } else if errors != [] && createdTasks == [] {
        success := false;
      }
    }
  }

  /** create_jira_tasks_from_llm_response: every create_issue failure and every
      element that is not an object adds exactly one error; success is lost only
      when nothing was created and something failed, or when the pass aborts. */
  method CreateJiraTasksFromLlmResponse(llm: LlmResponse, env: Env) returns (result: TasksResult, ghost aborted: bool)
    ensures fresh(result) && result.llmResponse == llm
    ensures result.events == PassEvents(llm, env)
    ensures aborted <==> PassAborts(llm)
    ensures |result.errors| == Faults(result.events)
    ensures !result.success <==> aborted || (result.errors != [] && result.createdTasks == [])
    ensures aborted ==>
      (result.errors != [] && result.events != [] && result.events[|result.events| - 1].Malformed?
       && result.errors[|result.errors| - 1] == AbortPrefix + Meetings.NoGet(result.events[|result.events| - 1].typeName))
    ensures AllResponsesOk(env.site, result.createdTasks) && EpicsFollowTasks(result.createdTasks)
    ensures KeysCreated(result.createdTasks, result.events)
    ensures !env.createSubtasks ==> forall i :: 0 <= i < |result.events| ==> !SubtaskCall(result.events[i])
  {
    result := new TasksResult(llm);
    aborted := result.Process(env);
  }
}
