/** The field normalisation of the Jira integration service's client
    (services/jira-integration/main.py): priority words, summary clean-up, the
    assignee field, due dates, the parent link, and the payload `create_issue`
    posts. The Jira site (its issue types, the Epic Name and Epic Link fields, and
    the POST) is a parameter. */
module JiraIntegration {
  import opened Wrappers
  import opened Text
  import Meetings

  // ---------------------------------------------------------------------------
  // Priorities
  // ---------------------------------------------------------------------------

  /** parse_priority: None for a missing or empty priority; the English and Russian
      names of the three levels become the Russian word; anything else is kept. */
  function ParsePriority(p: Option<string>): (r: Option<string>)
    ensures r.None? <==> !Meetings.Truthy(p)
    ensures r.Some? && Lower(p.value) !in {"высокий", "high", "средний", "medium", "низкий", "low"} ==> r == p
    ensures r.Some? && Lower(p.value) in {"высокий", "high"} ==> r == Some("высокий")
    ensures r.Some? && Lower(p.value) in {"средний", "medium"} ==> r == Some("средний")
    ensures r.Some? && Lower(p.value) in {"низкий", "low"} ==> r == Some("низкий")
  {
    if !Meetings.Truthy(p) then None
    else
      var l := Lower(p.value);
      if l in {"высокий", "high"} then Some("высокий")
      else if l in {"средний", "medium"} then Some("средний")
      else if l in {"низкий", "low"} then Some("низкий")
      else p
  }

  lemma LowerRussianLevels()
    ensures Lower("высокий") == "высокий" && Lower("средний") == "средний" && Lower("низкий") == "низкий"
  {
    assert Lower("высокий") == "высокий" by {
      forall k | 0 <= k < 7 ensures Lower("высокий")[k] == "высокий"[k] { }
    }
    assert Lower("средний") == "средний" by {
      forall k | 0 <= k < 7 ensures Lower("средний")[k] == "средний"[k] { }
    }
    assert Lower("низкий") == "низкий" by {
      forall k | 0 <= k < 6 ensures Lower("низкий")[k] == "низкий"[k] { }
    }
  }

  /** Normalising a normalised priority changes nothing. */
  lemma ParsePriorityIdempotent(p: Option<string>)
    ensures ParsePriority(ParsePriority(p)) == ParsePriority(p)
  {
    LowerRussianLevels();
    if Meetings.Truthy(p) {
      LowerIdempotent(p.value);
    }
  }

  /** The priority map of create_issue, keyed by lower-cased names. */
  const PriorityMap: map<string, string> := map[
    "высокий" := "High", "средний" := "Medium", "низкий" := "Low",
    "high" := "High", "medium" := "Medium", "low" := "Low"]

  /** The Jira priority name: the map's entry for the lower-cased priority, "Medium"
      for a missing, empty or unknown one. */
  function JiraPriority(p: Option<string>): (r: string)
    ensures r in {"High", "Medium", "Low"}
    ensures !Meetings.Truthy(p) ==> r == "Medium"
    ensures Meetings.Truthy(p) && Lower(p.value) !in PriorityMap ==> r == "Medium"
  {
    var key := if Meetings.Truthy(p) then Lower(p.value) else "medium";
    if key in PriorityMap then PriorityMap[key] else "Medium"
  }

  /** Letter case never changes the Jira priority. */
  lemma JiraPriorityCaseInsensitive(s: string)
    ensures JiraPriority(Some(Lower(s))) == JiraPriority(Some(s))
  {
    LowerIdempotent(s);
  }

  /** Normalising first (as the creation loops do) gives the same Jira priority. */
  lemma ParsePriorityKeepsJiraPriority(p: Option<string>)
    ensures JiraPriority(ParsePriority(p)) == JiraPriority(p)
  {
    LowerRussianLevels();
  }

  // ---------------------------------------------------------------------------
  // Summary, description, assignee, due date, parent
  // ---------------------------------------------------------------------------

  const MaxSummary: nat := 255

  /** The summary: whitespace runs collapsed to one space; over 255 characters,
      the first 252 and "...". */
  function CleanSummary(s: string): (r: string)
    ensures |r| <= MaxSummary
    ensures |CollapseSpaces(s)| <= MaxSummary ==> r == CollapseSpaces(s)
    ensures |CollapseSpaces(s)| > MaxSummary ==> r == CollapseSpaces(s)[..252] + "..."
  {
    var c := CollapseSpaces(s);
    if |c| > MaxSummary then c[..252] + "..." else c
  }

  /** A cleaned summary holds no newline, tab or double space and does not begin
      or end with a space. */
  lemma CleanSummaryCollapsed(s: string)
    ensures Collapsed(CleanSummary(s))
  {
    var c := CollapseSpaces(s);
    CollapseSpacesCollapsed(s);
    if |c| > MaxSummary {
      var r := c[..252] + "...";
      forall k | 0 <= k < |r| && IsSpace(r[k])
        ensures r[k] == ' ' && 0 < k < |r| - 1 && !IsSpace(r[k + 1])
      {
        assert k < 252 && r[k] == c[k];
        if k + 1 < 252 {
          assert r[k + 1] == c[k + 1];
        }
      }
    }
  }

  const NoDescription := "No description provided."

  /** An empty or whitespace-only description is replaced. */
  function DescriptionText(d: string): (r: string)
    ensures Strip(d) == [] ==> r == NoDescription
    ensures Strip(d) != [] ==> r == d
  {
    if d == [] || Strip(d) == [] then NoDescription else d
  }

  datatype AssigneeRef = AccountId(accountId: string) | EmailAddress(email: string) | UserName(name: string)

  const AccountPrefix := "557058:"

  /** The assignee field: an account id when the value starts with "557058:" or is
      longer than 20 characters, otherwise an email address when it holds '@',
      otherwise a user name. */
  function AssigneeOf(a: Option<string>): (r: Option<AssigneeRef>)
    ensures r.None? <==> !Meetings.Truthy(a)
    ensures r.Some? ==> (r.value.AccountId? <==> StartsWith(a.value, AccountPrefix) || |a.value| > 20)
    ensures (r.Some? && r.value.EmailAddress?) <==>
      (Meetings.Truthy(a) && !StartsWith(a.value, AccountPrefix) && |a.value| <= 20 && '@' in a.value)
    ensures r.Some? ==> r.value in {AccountId(a.value), EmailAddress(a.value), UserName(a.value)}
  {
    if !Meetings.Truthy(a) then None
    else if StartsWith(a.value, AccountPrefix) || |a.value| > 20 then Some(AccountId(a.value))
    else if '@' in a.value then Some(EmailAddress(a.value))
    else Some(UserName(a.value))
  }

  /** The due date: the part before the first 'T', set whenever a date was given. */
  function DueDateOf(d: Option<string>): (r: Option<string>)
    ensures r.Some? <==> Meetings.Truthy(d)
    ensures r.Some? ==> 'T' !in r.value && StartsWith(d.value, r.value)
    ensures r.Some? && 'T' !in d.value ==> r.value == d.value
  {
    if !Meetings.Truthy(d) then None
    else Some(SplitOn(d.value, 'T')[0])
  }

  /** Cutting a cut date changes nothing. */
  lemma DueDateIdempotent(d: Option<string>)
    requires DueDateOf(d).Some? && DueDateOf(d).value != ""
    ensures DueDateOf(DueDateOf(d)) == DueDateOf(d)
  {
  }

  datatype ParentRef = Parent(key: string) | EpicLink(field: string, key: string)

  /** The parent link: a sub-task gets `parent`; an epic never gets one; any other
      type is linked through the Epic Link field when the site has one, through
      `parent` otherwise. */
  function ParentOf(issueType: string, parentKey: Option<string>, epicLinkField: Option<string>): (r: Option<ParentRef>)
    ensures r.Some? ==> Meetings.Truthy(parentKey) && r.value.key == parentKey.value
    ensures Lower(issueType) == "epic" ==> r.None?
    ensures Lower(issueType) in {"sub-task", "subtask"} && Meetings.Truthy(parentKey) ==> r == Some(Parent(parentKey.value))
    ensures Meetings.Truthy(parentKey) && Lower(issueType) != "epic" ==> r.Some?
  {
    if !Meetings.Truthy(parentKey) then None
    else if Lower(issueType) in {"sub-task", "subtask"} then Some(Parent(parentKey.value))
    else if Lower(issueType) == "epic" then None
    else if Meetings.Truthy(epicLinkField) then Some(EpicLink(epicLinkField.value, parentKey.value))
    else Some(Parent(parentKey.value))
  }

  /** The issue type sent: the site's own spelling of a type equal to the requested
      one ignoring case, or the requested type when the site lists none. */
  function MatchIssueType(available: seq<string>, issueType: string): (r: string)
    ensures r == issueType || (r in available && Lower(r) == Lower(issueType))
    ensures (forall k :: 0 <= k < |available| ==> Lower(available[k]) != Lower(issueType)) ==> r == issueType
  {
    if available == [] then issueType
    else if Lower(available[0]) == Lower(issueType) then available[0]
    else MatchIssueType(available[1..], issueType)
  }

  // ---------------------------------------------------------------------------
  // The client
  // ---------------------------------------------------------------------------

  /** base_url.rstrip("/") */
  function TrimSlashes(s: string): (r: string)
    ensures |r| <= |s| && r == s[..|r|] && (r == [] || r[|r| - 1] != '/')
    ensures forall k :: |r| <= k < |s| ==> s[k] == '/'
  {
    if s == [] || s[|s| - 1] != '/' then s else TrimSlashes(s[..|s| - 1])
  }

  /** What the client knows of the Jira site: its base URL (trailing slashes
      removed), the issue types of the project, the Epic Name field id, and the
      Epic Link field id when one was found. */
  datatype Site = Site(baseUrl: string, issueTypes: seq<string>, epicNameField: string, epicLinkField: Option<string>)

  /** The constructor's URL normalisation. */
  function Connect(url: string, issueTypes: seq<string>, epicNameField: string, epicLinkField: Option<string>): (s: Site)
    ensures s.baseUrl == TrimSlashes(url)
  {
    Site(TrimSlashes(url), issueTypes, epicNameField, epicLinkField)
  }

  /** get_issue_url */
  function IssueUrl(site: Site, key: string): (r: string)
    ensures StartsWith(r, site.baseUrl) && r[|site.baseUrl|..] == "/browse/" + key
  {
    var r := site.baseUrl + "/browse/" + key;
    assert r[..|site.baseUrl|] == site.baseUrl;
    r
  }

  /** Issue URLs of one site are distinct for distinct keys. */
  lemma IssueUrlInjective(site: Site, a: string, b: string)
    requires IssueUrl(site, a) == IssueUrl(site, b)
    ensures a == b
  {
    assert "/browse/" + a == IssueUrl(site, a)[|site.baseUrl|..];
    assert a == ("/browse/" + a)[8..];
    assert b == ("/browse/" + b)[8..];
  }

  /** The request `create_issue` posts. */
  datatype Payload = Payload(
    project: string, summary: string, issueType: string, priority: string, description: string,
    epicName: Option<(string, string)>, assignee: Option<AssigneeRef>, dueDate: Option<string>,
    parent: Option<ParentRef>)

  /** The arguments of create_issue. */
  datatype IssueRequest = IssueRequest(
    projectKey: string, summary: string, description: string, issueType: string,
    priority: Option<string>, assignee: Option<string>, dueDate: Option<string>,
    parentKey: Option<string>, epicName: Option<string>)

  /** The Epic Name field: set only when an epic is created with a name. */
  function EpicNameOf(site: Site, issueType: string, epicName: Option<string>): (r: Option<(string, string)>)
    ensures r.Some? ==> Lower(issueType) == "epic" && Meetings.Truthy(epicName) && r.value == (site.epicNameField, epicName.value)
  {
    if Lower(issueType) == "epic" && Meetings.Truthy(epicName) && site.epicNameField != "" then
      Some((site.epicNameField, epicName.value))
    else None
  }

  /** The payload create_issue builds for a request. */
  function PayloadOf(site: Site, q: IssueRequest): (p: Payload)
    ensures |p.summary| <= MaxSummary && Strip(p.description) != []
    ensures p.priority in {"High", "Medium", "Low"}
    ensures p.parent.Some? ==> Lower(q.issueType) != "epic"
  {
    StripNonEmpty(NoDescription);
    Payload(q.projectKey, CleanSummary(q.summary), MatchIssueType(site.issueTypes, q.issueType),
      JiraPriority(q.priority), DescriptionText(q.description),
      EpicNameOf(site, q.issueType, q.epicName), AssigneeOf(q.assignee), DueDateOf(q.dueDate),
      ParentOf(q.issueType, q.parentKey, site.epicLinkField))
  }

  /** create_issue: builds the payload field by field and posts it; the reply is the
      new issue's key, or the error it raises. */
  method CreateIssue(site: Site, q: IssueRequest, post: Payload -> Result<string>)
    returns (r: Result<string>, payload: Payload)
    ensures payload == PayloadOf(site, q)
    ensures r == post(payload)
  {
    var matched := MatchIssueType(site.issueTypes, q.issueType);
    var jiraPriority := JiraPriority(q.priority);
    var summary := CleanSummary(q.summary);
    var description := q.description;
    if description == [] || Strip(description) == [] {
      description := NoDescription;
    }
    payload := Payload(q.projectKey, summary, matched, jiraPriority, description, None, None, None, None);
    if Lower(q.issueType) == "epic" && Meetings.Truthy(q.epicName) && site.epicNameField != "" {
      payload := payload.(epicName := Some((site.epicNameField, q.epicName.value)));
    }
    if Meetings.Truthy(q.assignee) {
      var a := q.assignee.value;
      if StartsWith(a, AccountPrefix) || |a| > 20 {
        payload := payload.(assignee := Some(AccountId(a)));
      } else if '@' in a {
        payload := payload.(assignee := Some(EmailAddress(a)));
      } else {
        payload := payload.(assignee := Some(UserName(a)));
      }
    }
    if Meetings.Truthy(q.dueDate) {
      var due := q.dueDate.value;
      if 'T' in due {
        due := SplitOn(due, 'T')[0];
      }
      payload := payload.(dueDate := Some(due));
    }
    payload := payload.(parent := ParentOf(q.issueType, q.parentKey, site.epicLinkField));
    r := post(payload);
  }
}
