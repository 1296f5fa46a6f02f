/** The bot launcher's Google Meet id parser: the id is searched for in the
    lower-cased link, first right after "meet.google.com/", then anywhere.

    An id has the shape xxx-yyyy-zzz of lower-case ASCII letters. A regular
    expression search returns the leftmost place where its pattern matches;
    both patterns have a fixed length, so that is the leftmost index at which
    the pattern's text occurs. */
module MeetId {
  import opened Wrappers
  import opened Text

  const CodeLength := 12
  const MeetHost := "meet.google.com/"

  /** `[a-z]` */
  predicate IsLetter(c: char) {
    'a' <= c <= 'z'
  }

  /** `[a-z]{3}-[a-z]{4}-[a-z]{3}` matches exactly w. */
  predicate IsMeetCode(w: string) {
    |w| == CodeLength
    && (forall k :: 0 <= k < 3 ==> IsLetter(w[k]))
    && w[3] == '-'
    && (forall k :: 4 <= k < 8 ==> IsLetter(w[k]))
    && w[8] == '-'
    && (forall k :: 9 <= k < 12 ==> IsLetter(w[k]))
  }

  /** The two patterns, in the order they are tried. */
  datatype Pattern = AfterHost | Anywhere

  const Patterns := [AfterHost, Anywhere]

  /** Where the captured group starts, relative to the match. */
  function GroupOffset(p: Pattern): nat {
    if p == AfterHost then |MeetHost| else 0
  }

  /** The pattern matches s at index i. */
  predicate MatchesAt(p: Pattern, s: string, i: nat) {
    i + GroupOffset(p) + CodeLength <= |s|
    && s[i..i + GroupOffset(p)] == (if p == AfterHost then MeetHost else "")
    && IsMeetCode(s[i + GroupOffset(p)..i + GroupOffset(p) + CodeLength])
  }

  /** `re.search` from index i on: the leftmost index at which p matches. */
  function Search(p: Pattern, s: string, i: nat): (r: Option<nat>)
    ensures r.Some? ==> i <= r.value && MatchesAt(p, s, r.value)
    ensures r.Some? ==> forall k :: i <= k < r.value ==> !MatchesAt(p, s, k)
    ensures r.None? ==> forall k :: i <= k ==> !MatchesAt(p, s, k)
    decreases |s| - i
  {
    if |s| < i + GroupOffset(p) + CodeLength then None
    else if MatchesAt(p, s, i) then Some(i)
    else Search(p, s, i + 1)
  }

  /** `match.group(1)` of a match at i. */
  function Group(p: Pattern, s: string, i: nat): string
    requires MatchesAt(p, s, i)
  {
    s[i + GroupOffset(p)..i + GroupOffset(p) + CodeLength]
  }

  /** The loop over the patterns: the group of the first one that matches. */
  function FirstMatch(ps: seq<Pattern>, s: string): (r: Option<string>)
    ensures r.Some? ==> exists p: Pattern, i: nat :: p in ps && MatchesAt(p, s, i) && r.value == Group(p, s, i)
  {
    if ps == [] then None
    else
      match Search(ps[0], s, 0)
      case Some(i) => Some(Group(ps[0], s, i))
      case None => FirstMatch(ps[1..], s)
  }

  /** `parse_google_meet_id` */
  function ParseGoogleMeetId(url: string): (r: Option<string>)
    ensures r.Some? ==> IsMeetCode(r.value)
    ensures r.Some? ==> Contains(Lower(url), r.value)
  {
    var s := Lower(url);
    var r := FirstMatch(Patterns, s);
    if r.Some? then
      var p: Pattern, i: nat :| p in Patterns && MatchesAt(p, s, i) && r.value == Group(p, s, i);
      var j := i + GroupOffset(p);
      assert OccursAt(s, r.value, j);
      r
    else r
  }

  // ---------------------------------------------------------------------------
  // Properties
  // ---------------------------------------------------------------------------

  /** A match after the host is also a match anywhere, at the id's own index. */
  lemma HostMatchIsCode(s: string, i: nat)
    requires MatchesAt(AfterHost, s, i)
    ensures MatchesAt(Anywhere, s, i + |MeetHost|)
    ensures Group(Anywhere, s, i + |MeetHost|) == Group(AfterHost, s, i)
  {
  }

  /** An id after "meet.google.com/" wins over any id-shaped text earlier in the
      link: the result is the id after the leftmost host occurrence. */
  lemma HostFirst(url: string, i: nat)
    requires MatchesAt(AfterHost, Lower(url), i)
    ensures var j := Search(AfterHost, Lower(url), 0);
            j.Some? && j.value <= i && ParseGoogleMeetId(url) == Some(Group(AfterHost, Lower(url), j.value))
  {
    var s := Lower(url);
    assert Patterns[0] == AfterHost;
    assert Search(AfterHost, s, 0).Some?;
  }

  /** Without the host, the leftmost id-shaped window is the result. */
  lemma LeftmostWindow(url: string)
    requires forall i :: !MatchesAt(AfterHost, Lower(url), i)
    ensures ParseGoogleMeetId(url) ==
              match Search(Anywhere, Lower(url), 0)
              case Some(j) => Some(Lower(url)[j..j + CodeLength])
              case None => None
  {
    var s := Lower(url);
    assert Search(AfterHost, s, 0).None?;
    assert Patterns[0] == AfterHost && Patterns[1..] == [Anywhere];
    assert [Anywhere][0] == Anywhere && [Anywhere][1..] == [];
    match Search(Anywhere, s, 0)
    case Some(j) =>
      assert FirstMatch([Anywhere], s) == Some(Group(Anywhere, s, j));
    case None =>
      assert FirstMatch([Anywhere], s) == None;
  }

  /** The result is None exactly when the lower-cased link has no id-shaped window. */
  lemma NoneIffNoWindow(url: string)
    ensures ParseGoogleMeetId(url).None? <==> forall i :: !MatchesAt(Anywhere, Lower(url), i)
  {
    var s := Lower(url);
    if ParseGoogleMeetId(url).None? {
      assert Patterns[0] == AfterHost && Patterns[1..] == [Anywhere];
      assert Search(AfterHost, s, 0).None?;
      assert [Anywhere][0] == Anywhere;
      assert FirstMatch([Anywhere], s).None?;
      assert Search(Anywhere, s, 0).None?;
    } else {
      var p: Pattern, i: nat :| p in Patterns && MatchesAt(p, s, i);
      if p == AfterHost {
        HostMatchIsCode(s, i);
      }
    }
  }

  /** Letter case in the link never changes the result. */
  lemma IgnoresCase(a: string, b: string)
    requires Lower(a) == Lower(b)
    ensures ParseGoogleMeetId(a) == ParseGoogleMeetId(b)
  {
  }

  lemma ParseLowered(url: string)
    ensures ParseGoogleMeetId(Lower(url)) == ParseGoogleMeetId(url)
  {
    LowerIdempotent(url);
  }

  /** Text of lower-case letters and dashes, an id among them, is its own lower-case form. */
  lemma LowerKeeps(w: string)
    requires forall k :: 0 <= k < |w| ==> IsLetter(w[k]) || w[k] == '-'
    ensures Lower(w) == w
  {
  }

  lemma CodeIsLower(w: string)
    requires IsMeetCode(w)
    ensures Lower(w) == w
  {
    LowerKeeps(w);
  }

  /** Parsing a parsed id gives it back. */
  lemma ReparseKeepsId(url: string)
    requires ParseGoogleMeetId(url).Some?
    ensures ParseGoogleMeetId(ParseGoogleMeetId(url).value) == ParseGoogleMeetId(url)
  {
    var w := ParseGoogleMeetId(url).value;
    CodeIsLower(w);
    assert Search(AfterHost, w, 0).None?;
    assert w[0..0] == "";
    assert MatchesAt(Anywhere, w, 0);
    assert Search(Anywhere, w, 0) == Some(0);
    assert Patterns[0] == AfterHost && Patterns[1..] == [Anywhere];
    assert [Anywhere][0] == Anywhere;
    assert FirstMatch([Anywhere], w) == Some(w[0..CodeLength]);
    assert w[0..CodeLength] == w;
  }

  /** The unanchored pattern takes the first 3-4-3 window, even inside a longer run of letters. */
  lemma OverlongRun()
    ensures ParseGoogleMeetId("abcd-efgh-ijkl") == Some("bcd-efgh-ijk")
  {
    var s := "abcd-efgh-ijkl";
    assert forall k :: 0 <= k < |s| ==> IsLetter(s[k]) || s[k] == '-';
    LowerKeeps(s);
    assert !MatchesAt(Anywhere, s, 0) by {
      assert s[0..12][3] == 'd';
    }
    assert s[1..13] == "bcd-efgh-ijk";
    assert MatchesAt(Anywhere, s, 1);
    assert Search(AfterHost, s, 0).None?;
    assert Patterns[1..] == [Anywhere];
  }
}
