/** The team roster of the Jira sync worker: a text file whose lines read
    `Name — Role — … | jira_account_id:<id>`, parsed into a name → account map that
    the module keeps as its cache (services/jira-sync-worker/team_mapper.py).

    The file is an input: `None` stands for a file that cannot be opened or read,
    `Some(lines)` for its lines. */
module TeamRoster {
  import opened Wrappers
  import opened Text

  /** The em dash that ends the name. */
  const NameEnd: char := '—'

  const AccountTag: string := "jira_account_id:"

  /** One roster line: a member and, when the line names one, a Jira account. */
  datatype Entry = Entry(name: string, accountId: Option<string>)

  // ---------------------------------------------------------------------------
  // Parsing one line
  // ---------------------------------------------------------------------------

  /** The pattern `jira_account_id:(\S+)` matches at index i. */
  predicate TagAt(s: string, i: nat) {
    OccursAt(s, AccountTag, i) && i + |AccountTag| < |s| && !IsSpace(s[i + |AccountTag|])
  }

  /** Index of the leftmost match at or after `from`, or |s| when there is none. */
  function TagIndex(s: string, from: nat): (n: nat)
    requires from <= |s|
    ensures from <= n <= |s|
    ensures forall k :: from <= k < n ==> !TagAt(s, k)
    ensures n < |s| ==> TagAt(s, n)
    decreases |s| - from
  {
    if from == |s| || TagAt(s, from) then from else TagIndex(s, from + 1)
  }

  /** `re.search(r"jira_account_id:(\S+)", s)`: the run of non-space characters after
      the leftmost tag that is followed by one. */
  function FindAccountId(s: string): (r: Option<string>)
    ensures r.Some? ==> r.value != [] && NoSpace(r.value)
    ensures r.None? <==> forall i: nat :: !TagAt(s, i)
  {
    var n := TagIndex(s, 0);
    if n == |s| then None
    else
      var rest := s[n + |AccountTag|..];
      Some(rest[..WordLength(rest)])
  }

  /** What `load_team_mapping` takes from one line of the file, if anything: the line
      is stripped; blank and `#` lines are skipped; the name is the stripped text
      before the first em dash of the part before the first `|` (no entry when that
      part is empty or starts with the dash); the account is searched for in the
      second `|` part only. */
  function ParseRosterLine(raw: string): (r: Option<Entry>)
    ensures Strip(raw) == [] || Strip(raw)[0] == '#' ==> r.None?
    ensures Strip(raw) != [] && Strip(raw)[0] == NameEnd ==> r.None?
  {
    var line := Strip(raw);
    if line == [] || line[0] == '#' then None
    else
      var parts := SplitOn(line, '|');
      var namePart := Strip(parts[0]);
      var n := IndexOf(namePart, NameEnd);
      assert line[0] == NameEnd ==> n == 0 by {
        if line[0] == NameEnd {
          StripNonEmpty(parts[0]);
        }
      }
      if n == 0 then None
      else
        var account := if |parts| > 1 then FindAccountId(Strip(parts[1])) else None;
        Some(Entry(Strip(namePart[..n]), account))
  }

  /** Every entry has a non-empty name free of the em dash and of `|`; a line without
      `|` has no account; an account is a non-empty run without whitespace. */
  lemma ParsedEntryShape(raw: string)
    requires ParseRosterLine(raw).Some?
    ensures var e := ParseRosterLine(raw).value;
      && e.name != [] && !IsSpace(e.name[0])
      && NameEnd !in e.name && '|' !in e.name
      && ('|' !in Strip(raw) ==> e.accountId.None?)
      && (e.accountId.Some? ==> e.accountId.value != [] && NoSpace(e.accountId.value))
  {
    var line := Strip(raw);
    var parts := SplitOn(line, '|');
    var namePart := Strip(parts[0]);
    var n := IndexOf(namePart, NameEnd);
    NameChars(line, namePart, n);
    StripNonEmpty(namePart[..n]);
    if '|' !in line {
      assert IndexOf(line, '|') == |line|;
      assert |parts| == 1;
    }
  }

  /** The name of a line is free of the em dash and of `|`. */
  lemma NameChars(line: string, namePart: string, n: nat)
    requires namePart == Strip(SplitOn(line, '|')[0])
    requires 0 < n == IndexOf(namePart, NameEnd)
    ensures NameEnd !in Strip(namePart[..n]) && '|' !in Strip(namePart[..n])
    ensures !IsSpace(namePart[0])
  {
    var head := SplitOn(line, '|')[0];
    StripChars(head);
    StripChars(namePart[..n]);
    StripShape(head);
    assert '|' !in head;
  }

  /** A well-formed roster line `name — role | jira_account_id:id` parses back into
      its name and account. */
  lemma RosterLineRoundTrip(name: string, role: string, id: string)
    requires name != [] && !IsSpace(name[0]) && !IsSpace(name[|name| - 1]) && name[0] != '#'
    requires NameEnd !in name && '|' !in name && '|' !in role
    requires id != [] && NoSpace(id) && '|' !in id
    ensures ParseRosterLine(name + " — " + role + " | " + AccountTag + id) == Some(Entry(name, Some(id)))
  {
    var head := name + " — " + role + " ";
    var tail := " " + AccountTag + id;
    var line := name + " — " + role + " | " + AccountTag + id;
    assert line == head + "|" + tail;
    assert line[0] == name[0] && line[|line| - 1] == id[|id| - 1];
    StripKeeps(line);
    assert '|' !in AccountTag;
    SplitAt(head, tail);
    HeadName(name, role);
    TailAccount(id);
  }

  /** The name part of a well-formed line yields the name. */
  lemma HeadName(name: string, role: string)
    requires name != [] && !IsSpace(name[0]) && !IsSpace(name[|name| - 1])
    requires NameEnd !in name
    ensures var namePart := Strip(name + " — " + role + " ");
      && IndexOf(namePart, NameEnd) == |name| + 1
      && Strip(namePart[..|name| + 1]) == name
  {
    var head := name + " — " + role + " ";
    var namePart := Strip(head);
    assert TrimStart(head) == head;
    TrimEndShape(head);
    assert head[|name| + 1] == NameEnd;
    assert |namePart| > |name| + 1;
    assert namePart[..|name| + 2] == name + " —";
    assert forall k :: 0 <= k < |name| + 1 ==> namePart[k] != NameEnd by {
      assert forall k :: 0 <= k < |name| ==> namePart[k] == name[k];
    }
    assert namePart[|name| + 1] == NameEnd;
    assert namePart[..|name| + 1] == name + " ";
    StripPadded(name, " ");
  }

  /** The second part of a well-formed line yields the account. */
  lemma TailAccount(id: string)
    requires id != [] && NoSpace(id)
    ensures FindAccountId(Strip(" " + AccountTag + id)) == Some(id)
  {
    var tagged := AccountTag + id;
    var tail := " " + tagged;
    assert " " + AccountTag + id == tail;
    assert tail[1..] == tagged;
    assert TrimStart(tail) == TrimStart(tagged);
    assert tagged[0] == 'j';
    assert tagged[|tagged| - 1] == id[|id| - 1];
    StripKeeps(tagged);
    assert Strip(tail) == tagged;
    assert TagAt(tagged, 0) by {
      assert tagged[0..|AccountTag|] == AccountTag;
    }
    assert TagIndex(tagged, 0) == 0;
    assert tagged[|AccountTag|..] == id;
    assert WordLength(id) == |id|;
    assert id[..|id|] == id;
  }

  /** Splitting `head|tail` on `|` when neither part holds one. */
  lemma SplitAt(head: string, tail: string)
    requires '|' !in head && '|' !in tail
    ensures SplitOn(head + "|" + tail, '|') == [head, tail]
  {
    var s := head + "|" + tail;
    var n := IndexOf(s, '|');
    assert forall k :: 0 <= k < |head| ==> s[k] == head[k];
    assert s[|head|] == '|';
    assert s[..n] == head;
    assert s[n + 1..] == tail;
    assert IndexOf(tail, '|') == |tail|;
  }

  // ---------------------------------------------------------------------------
  // The whole file, and the module-level cache
  // ---------------------------------------------------------------------------

  /** The entry (if any) of each line, in order. */
  function Entries(lines: seq<string>): (es: seq<Option<Entry>>)
    ensures |es| == |lines|
    ensures forall k :: 0 <= k < |lines| ==> es[k] == ParseRosterLine(lines[k])
  {
    if lines == [] then []
    else Entries(lines[..|lines| - 1]) + [ParseRosterLine(lines[|lines| - 1])]
  }

  /** Entries folded into a dict, a later entry overwriting an earlier one with the
      same name. */
  function Collect(es: seq<Option<Entry>>): map<string, Option<string>>
  {
    if es == [] then map[]
    else
      var m := Collect(es[..|es| - 1]);
      match es[|es| - 1]
      case None => m
      case Some(e) => m[e.name := e.accountId]
  }

  /** The mapping the lines of a file give. */
  function MappingOf(lines: seq<string>): map<string, Option<string>>
  {
    Collect(Entries(lines))
  }

  /** Entry i names `name`. */
  predicate NamedAt(es: seq<Option<Entry>>, i: int, name: string)
    requires 0 <= i < |es|
  {
    es[i].Some? && es[i].value.name == name
  }

  /** A name is in the mapping exactly when some entry names it. */
  lemma {:induction false} CollectKeys(es: seq<Option<Entry>>, name: string)
    ensures name in Collect(es) <==> exists i :: 0 <= i < |es| && NamedAt(es, i, name)
  {
    if es != [] {
      var init := es[..|es| - 1];
      CollectKeys(init, name);
      if NamedAt(es, |es| - 1, name) {
        assert exists i :: 0 <= i < |es| && NamedAt(es, i, name);
      }
      if exists i :: 0 <= i < |init| && NamedAt(init, i, name) {
        var i :| 0 <= i < |init| && NamedAt(init, i, name);
        assert NamedAt(es, i, name);
      }
      if exists i :: 0 <= i < |es| && NamedAt(es, i, name) {
        var i :| 0 <= i < |es| && NamedAt(es, i, name);
        if i < |init| {
          assert NamedAt(init, i, name);
        }
      }
    }
  }

  /** The account of a name is the one of the last entry that names it. */
  lemma {:induction false} LaterEntryWins(es: seq<Option<Entry>>, i: int, name: string)
    requires 0 <= i < |es| && NamedAt(es, i, name)
    requires forall j :: i < j < |es| ==> !NamedAt(es, j, name)
    ensures name in Collect(es)
    ensures Collect(es)[name] == es[i].value.accountId
  {
    var init := es[..|es| - 1];
    if i < |es| - 1 {
      forall j | i < j < |init| ensures !NamedAt(init, j, name) {
        assert !NamedAt(es, j, name);
      }
      assert NamedAt(init, i, name);
      LaterEntryWins(init, i, name);
      assert !NamedAt(es, |es| - 1, name);
    }
  }

  /** What `load_team_mapping` returns given the cached mapping and the file: the
      cache when it is non-empty, otherwise the file's mapping ({} when the file
      cannot be read). */
  function Loaded(cached: map<string, Option<string>>, file: Option<seq<string>>): (m: map<string, Option<string>>)
    ensures cached != map[] ==> m == cached
    ensures cached == map[] && file.None? ==> m == map[]
  {
    if cached != map[] then cached
    else if file.None? then map[]
    else MappingOf(file.value)
  }

  /** Loading again from the state a load left changes nothing: the cache is
      stable once filled, and an empty result is reloaded from the same file. */
  lemma LoadedStable(cached: map<string, Option<string>>, file: Option<seq<string>>)
    ensures Loaded(Loaded(cached, file), file) == Loaded(cached, file)
  {
  }

  /** `mapping.get(name)`: absent names and names without an account both give None. */
  function AccountOf(m: map<string, Option<string>>, name: string): (r: Option<string>)
    ensures name !in m ==> r.None?
    ensures name in m ==> r == m[name]
  {
    if name in m then m[name] else None
  }

  /** The module-level `_team_mapping` dict, which is both the result and the cache. */
  class RosterCache {
    var mapping: map<string, Option<string>>

    constructor()
      ensures mapping == map[]
    {
      mapping := map[];
    }

    /** load_team_mapping: returns the cached mapping without reading when it is
        non-empty; otherwise parses the file line by line into the cache. */
    method Load(file: Option<seq<string>>) returns (r: map<string, Option<string>>, readFile: bool)
      modifies this
      ensures readFile <==> old(mapping) == map[]
      ensures r == mapping == Loaded(old(mapping), file)
    {
      if mapping != map[] {
        return mapping, false;
      }
      readFile := true;
      if file.None? {
        return map[], readFile;
      }
      var lines := file.value;
      var i := 0;
      while i < |lines|
        invariant 0 <= i <= |lines|
        invariant mapping == MappingOf(lines[..i])
      {
        assert lines[..i + 1][..i] == lines[..i];
        match ParseRosterLine(lines[i]) {
          case None =>
          case Some(e) =>
            mapping := mapping[e.name := e.accountId];
        }
        i := i + 1;
      }
      assert lines[..i] == lines;
      r := mapping;
    }

    /** get_jira_account_id: an exact lookup in the loaded mapping. */
    method GetJiraAccountId(name: string, file: Option<seq<string>>) returns (r: Option<string>)
      modifies this
      ensures mapping == Loaded(old(mapping), file)
      ensures r == AccountOf(mapping, name)
    {
      var m, _ := Load(file);
      r := if name in m then m[name] else None;
    }
  }
}
