/** The Jira client of the sync worker (services/jira-sync-worker/jira_client.py):
    the retry loop with exponential backoff, the user-lookup cache, and issue
    creation with its dry-run mode.

    The Jira REST calls are parameters: a call is a function of its arguments and of
    the attempt number, so a sequence of attempts can fail and then succeed. Waiting
    is not performed; the loop reports the waits it would sleep. */
module JiraClient {
  import opened Wrappers
  import opened Text
  import opened Meetings

  /** An exception a Jira call can raise: a `JIRAError` (whose status code may be
      missing) or any other exception. */
  datatype Failure = JiraError(status: Option<int>, text: string) | OtherError(text: string)

  /** The outcome of a call that may raise. */
  datatype Outcome<+T> = Returned(value: T) | Raised(failure: Failure)

  /** The error raised when the attempt budget is not positive. */
  const FailedAfterRetries := JiraError(None, "Failed after retries")

  /** What `e.status_code >= 500` raises when the status code is missing. */
  const StatusCompareError := OtherError("'>=' not supported between instances of 'NoneType' and 'int'")

  /** The failure is a server error (status 500 or more), the one kind that is retried. */
  predicate ServerError(f: Failure) {
    f.JiraError? && f.status.Some? && f.status.value >= 500
  }

  /** The outcome of an attempt is retried, given attempts remain. */
  predicate Retryable<T>(o: Outcome<T>) {
    o.Raised? && ServerError(o.failure)
  }

  /** What the loop passes on from an attempt it does not retry: the value, or the
      exception, except that a JIRAError without status fails the status comparison. */
  function Settled<T>(o: Outcome<T>): (r: Outcome<T>)
    ensures o.Returned? ==> r == o
    ensures o.Raised? && !(o.failure.JiraError? && o.failure.status.None?) ==> r == o
    ensures r.Raised? ==> r.failure != FailedAfterRetries
  {
    if o.Raised? && o.failure.JiraError? && o.failure.status.None? then Raised(StatusCompareError) else o
  }

  /** base ** k */
  function Pow(base: real, k: nat): real {
    if k == 0 then 1.0 else base * Pow(base, k - 1)
  }

  /** The outcome of the retry loop from attempt k on. */
  function Retried<T>(maxAttempts: int, call: nat -> Outcome<T>, k: nat): Outcome<T>
    decreases maxAttempts - k
  {
    if k >= maxAttempts then Raised(FailedAfterRetries)
    else if Retryable(call(k)) && k < maxAttempts - 1 then Retried(maxAttempts, call, k + 1)
    else Settled(call(k))
  }

  /** Settings the client reads from the environment. */
  datatype Settings = Settings(projectKey: string, maxAttempts: int, backoffBase: real, dryRun: bool)

  /** `_retry_with_backoff`: calls `call` for attempts 0, 1, … and returns the first
      success; a server error on an attempt that is not the last is retried after
      waiting `base ** attempt` seconds; anything else is passed on at once. */
  method RetryWithBackoff<T>(maxAttempts: int, base: real, call: nat -> Outcome<T>)
    returns (r: Outcome<T>, attempts: nat, waits: seq<real>)
    ensures maxAttempts <= 0 ==> attempts == 0 && waits == [] && r == Raised(FailedAfterRetries)
    ensures maxAttempts > 0 ==> 1 <= attempts <= maxAttempts && |waits| == attempts - 1
    ensures maxAttempts > 0 ==> r == Settled(call(attempts - 1))
    ensures forall k :: 0 <= k < attempts - 1 ==> Retryable(call(k))
    ensures 0 < attempts < maxAttempts ==> !Retryable(call(attempts - 1))
    ensures forall k :: 0 <= k < |waits| ==> waits[k] == Pow(base, k)
    ensures r == Raised(FailedAfterRetries) <==> maxAttempts <= 0
    ensures r == Retried(maxAttempts, call, 0)
  {
    attempts := 0;
    waits := [];
    while attempts < maxAttempts
      invariant 0 <= attempts && (maxAttempts > 0 ==> attempts <= maxAttempts)
      invariant |waits| == attempts
      invariant forall k :: 0 <= k < attempts ==> Retryable(call(k))
      invariant forall k :: 0 <= k < |waits| ==> waits[k] == Pow(base, k)
      invariant attempts > 0 ==> attempts < maxAttempts
      invariant Retried(maxAttempts, call, 0) == Retried(maxAttempts, call, attempts)
      decreases maxAttempts - attempts
    {
      var o := call(attempts);
      attempts := attempts + 1;
      match o {
        case Returned(_) =>
          return o, attempts, waits;
        case Raised(f) =>
          if f.JiraError? && f.status.None? {
            return Raised(StatusCompareError), attempts, waits;
          }
          if !(f.JiraError? && f.status.value >= 500 && attempts - 1 < maxAttempts - 1) {
            return o, attempts, waits;
          }
          waits := waits + [Pow(base, attempts - 1)];
      }
    }
    r := Raised(FailedAfterRetries);
  }

  // ---------------------------------------------------------------------------
  // Users
  // ---------------------------------------------------------------------------

  /** What `find_user_by_name` makes of a search: the first user's account, None
      when nobody matches, when the search raises a JIRAError, or in dry run (which
      does not search); any other exception propagates. */
  function UserLookup(dryRun: bool, search: Outcome<seq<string>>): (r: Outcome<Option<string>>)
    ensures dryRun ==> r == Returned(None)
    ensures r.Returned? && r.value.Some? <==> !dryRun && search.Returned? && search.value != []
    ensures r.Raised? <==> !dryRun && search.Raised? && search.failure.OtherError?
  {
    if dryRun then Returned(None)
    else match search
      case Returned(users) => Returned(if users == [] then None else Some(users[0]))
      case Raised(JiraError(_, _)) => Returned(None)
      case Raised(OtherError(m)) => Raised(OtherError(m))
  }

  /** A cache that holds for each name what a fresh lookup would give. */
  predicate CacheAgrees(cache: map<string, Option<string>>, dryRun: bool, search: string -> Outcome<seq<string>>) {
    forall name :: name in cache ==> UserLookup(dryRun, search(name)) == Returned(cache[name])
  }

  /** A key and id of a created issue. */
  datatype IssueRef = IssueRef(key: string, id: string)

  /** The `fields` of an issue: project, summary, description and type always;
      assignee, due date, priority and labels only when given and truthy. */
  datatype IssueFields = IssueFields(
    projectKey: string, summary: string, description: string, issueType: string,
    assignee: Option<string>, dueDate: Option<string>, priority: Option<string>,
    labels: Option<seq<string>>)

  /** The fields `create_issue` sends. */
  function FieldsOf(projectKey: string, summary: string, description: string, issueType: string,
                    assignee: Option<string>, dueDate: Option<string>, priority: Option<string>,
                    labels: Option<seq<string>>): (f: IssueFields)
    ensures f.projectKey == projectKey && f.summary == summary
    ensures f.description == description && f.issueType == issueType
    ensures (f.assignee.Some? <==> Truthy(assignee)) && (f.assignee.Some? ==> f.assignee == assignee)
    ensures (f.dueDate.Some? <==> Truthy(dueDate)) && (f.dueDate.Some? ==> f.dueDate == dueDate)
    ensures (f.priority.Some? <==> Truthy(priority)) && (f.priority.Some? ==> f.priority == priority)
    ensures (f.labels.Some? <==> labels.Some? && labels.value != []) && (f.labels.Some? ==> f.labels == labels)
  {
    IssueFields(projectKey, summary, description, issueType,
      if Truthy(assignee) then assignee else None,
      if Truthy(dueDate) then dueDate else None,
      if Truthy(priority) then priority else None,
      if labels.Some? && labels.value != [] then labels else None)
  }

  /** The reply `create_issue` gives in dry run. */
  const DryRunRef := IssueRef("DRY-RUN-1", "dry-run-1")

  /** One entry of a bulk reply: the created issue, or the errors. */
  datatype BulkResult = Created(issue: IssueRef) | Errors(text: string)

  /** The i-th (0-based) entry of a dry-run bulk reply. */
  function DryRunBulkEntry(i: nat): BulkResult {
    Created(IssueRef("DRY-RUN-" + IntToString(i + 1), "dry-run-" + IntToString(i + 1)))
  }

  /** The dry-run bulk entries carry distinct keys. */
  lemma DryRunKeysDistinct(i: nat, j: nat)
    requires i != j
    ensures DryRunBulkEntry(i).issue.key != DryRunBulkEntry(j).issue.key
  {
    var p := "DRY-RUN-";
    if DryRunBulkEntry(i).issue.key == DryRunBulkEntry(j).issue.key {
      assert (p + IntToString(i + 1))[|p|..] == IntToString(i + 1);
      assert (p + IntToString(j + 1))[|p|..] == IntToString(j + 1);
      IntToStringInjective(i + 1, j + 1);
    }
  }

  /** What `create_issue` answers outside dry run: the created issue, None when the
      retry loop ends in a JIRAError, or the other exception it ends in. */
  function CreateReply(settings: Settings, fields: IssueFields, create: IssueFields -> nat -> Outcome<IssueRef>)
    : (r: Outcome<Option<IssueRef>>)
    ensures r.Raised? ==> r.failure.OtherError?
    ensures settings.maxAttempts <= 0 ==> r == Returned(None)
  {
    match Retried(settings.maxAttempts, create(fields), 0)
    case Returned(issue) => Returned(Some(issue))
    case Raised(JiraError(_, _)) => Returned(None)
    case Raised(OtherError(m)) => Raised(OtherError(m))
  }

  /** What `create_issues_bulk` answers outside dry run: the bulk reply, one error entry
      per issue when the retry loop ends in a JIRAError, or the other exception. */
  function BulkReply(settings: Settings, issues: seq<IssueFields>,
                     createAll: seq<IssueFields> -> nat -> Outcome<seq<BulkResult>>)
    : (r: Outcome<seq<BulkResult>>)
    ensures r.Raised? ==> r.failure.OtherError?
    ensures Retried(settings.maxAttempts, createAll(issues), 0).Raised? && r.Returned? ==>
              |r.value| == |issues| && forall i :: 0 <= i < |issues| ==> r.value[i].Errors?
  {
    match Retried(settings.maxAttempts, createAll(issues), 0)
    case Returned(results) => Returned(results)
    case Raised(JiraError(_, t)) => Returned(seq(|issues|, _ => Errors(t)))
    case Raised(OtherError(m)) => Raised(OtherError(m))
  }

  class Client {
    const settings: Settings
    /** `_user_cache`: name → account id, None recorded for misses too. */
    var userCache: map<string, Option<string>>

    constructor(settings: Settings)
      ensures this.settings == settings && userCache == map[]
    {
      this.settings := settings;
      userCache := map[];
    }

    /** find_user_by_name: answers from the cache when the name is there; otherwise
        searches (except in dry run) and caches every outcome but an exception that
        is not a JIRAError. A cache that agrees with the search keeps agreeing, so
        the answer is always that of a fresh lookup. */
    method FindUserByName(name: string, search: string -> Outcome<seq<string>>)
      returns (r: Outcome<Option<string>>, searched: bool)
      modifies this
      ensures name in old(userCache) ==> r == Returned(old(userCache)[name]) && !searched && userCache == old(userCache)
      ensures name !in old(userCache) ==> searched == !settings.dryRun && r == UserLookup(settings.dryRun, search(name))
      ensures name !in old(userCache) && r.Returned? ==> userCache == old(userCache)[name := r.value]
      ensures r.Raised? ==> userCache == old(userCache)
      ensures CacheAgrees(old(userCache), settings.dryRun, search) ==>
                r == UserLookup(settings.dryRun, search(name)) && CacheAgrees(userCache, settings.dryRun, search)
    {
      if name in userCache {
        return Returned(userCache[name]), false;
      }
      if settings.dryRun {
        userCache := userCache[name := None];
        return Returned(None), false;
      }
      searched := true;
      match search(name) {
        case Returned(users) =>
          if users != [] {
            userCache := userCache[name := Some(users[0])];
            r := Returned(Some(users[0]));
          } else {
            userCache := userCache[name := None];
            r := Returned(None);
          }
        case Raised(f) =>
          if f.JiraError? {
            userCache := userCache[name := None];
            r := Returned(None);
          } else {
            r := Raised(f);
          }
      }
    }

    /** create_issue: assembles the fields; in dry run answers DRY-RUN-1 without a
        call; otherwise creates through the retry loop, turning a JIRAError into
        None and passing any other exception on. */
    method CreateIssue(summary: string, description: string, issueType: string,
                       assignee: Option<string>, dueDate: Option<string>, priority: Option<string>,
                       labels: Option<seq<string>>, create: IssueFields -> nat -> Outcome<IssueRef>)
      returns (r: Outcome<Option<IssueRef>>, sent: Option<IssueFields>, attempts: nat)
      ensures sent.Some? <==> !settings.dryRun
      ensures settings.dryRun ==> r == Returned(Some(DryRunRef)) && attempts == 0
      ensures sent.Some? ==> sent.value == FieldsOf(settings.projectKey, summary, description, issueType, assignee, dueDate, priority, labels)
      ensures !settings.dryRun ==> r == CreateReply(settings, sent.value, create)
    {
      var fields := IssueFields(settings.projectKey, summary, description, issueType, None, None, None, None);
      if assignee.Some? && assignee.value != "" {
        fields := fields.(assignee := assignee);
      }
      if dueDate.Some? && dueDate.value != "" {
        fields := fields.(dueDate := dueDate);
      }
      if priority.Some? && priority.value != "" {
        fields := fields.(priority := priority);
      }
      if labels.Some? && labels.value != [] {
        fields := fields.(labels := labels);
      }
      if settings.dryRun {
        return Returned(Some(DryRunRef)), None, 0;
      }
      sent := Some(fields);
      var o, n, _ := RetryWithBackoff(settings.maxAttempts, settings.backoffBase, create(fields));
      attempts := n;
      r := match o
        case Returned(issue) => Returned(Some(issue))
        case Raised(JiraError(_, _)) => Returned(None)
        case Raised(OtherError(m)) => Raised(OtherError(m));
    }

    /** create_issues_bulk: one dry-run entry per issue in dry run; otherwise the bulk
        reply, or one error entry per issue when it raises a JIRAError. */
    method CreateIssuesBulk(issues: seq<IssueFields>, createAll: seq<IssueFields> -> nat -> Outcome<seq<BulkResult>>)
      returns (r: Outcome<seq<BulkResult>>)
      ensures settings.dryRun ==> r.Returned? && |r.value| == |issues|
      ensures settings.dryRun ==> forall i :: 0 <= i < |issues| ==> r.value[i] == DryRunBulkEntry(i)
      ensures !settings.dryRun ==> r == BulkReply(settings, issues, createAll)
    {
      if settings.dryRun {
        var entries := [];
        for i := 0 to |issues|
          invariant |entries| == i
          invariant forall k :: 0 <= k < i ==> entries[k] == DryRunBulkEntry(k)
        {
          entries := entries + [DryRunBulkEntry(i)];
        }
        return Returned(entries);
      }
      var o, _, _ := RetryWithBackoff(settings.maxAttempts, settings.backoffBase, createAll(issues));
      match o {
        case Returned(results) =>
          r := Returned(results);
        case Raised(f) =>
          if f.JiraError? {
            r := Returned(seq(|issues|, _ => Errors(f.text)));
          } else {
            r := Raised(f);
          }
      }
    }
  }
}
