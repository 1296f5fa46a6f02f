/** The daily reminder e-mail of the notifier service: an HTML and a plain-text
    rendering of a user's upcoming deadlines and of the last meeting summary.

    Both formatters build their output by appending to a string inside loops;
    each is a method proved equal to a rendering function, and the rules the
    e-mail follows (urgency classes, day-count suffixes, highlight truncation,
    the label emoji, the fallback texts) are proved about those functions.

    Moments are whole seconds on one time line; the clock reading and the two
    `strftime` patterns are inputs gathered in a `Clock`. */
module EmailTemplates {
  import opened Wrappers
  import opened Text
  import Meetings

  // ---------------------------------------------------------------------------
  // Inputs: the rows the notifier's queries return
  // ---------------------------------------------------------------------------

  /** One open action item with a due date, joined with its meeting. */
  datatype UpcomingDeadline = UpcomingDeadline(
    description: Option<string>,
    owner: Option<string>,
    priority: Option<string>,
    dueDate: Option<int>,
    meetingPlatform: Option<string>,
    meetingStartTime: Option<int>)

  /** A blocker or a mentioned deadline of the meeting metadata: a JSON string,
      or a JSON object with an optional "description" and its printed form. */
  datatype Entry = Str(s: string) | Dict(description: Option<string>, repr: string)

  /** A speaker highlight row; `tag` is its label column, which is nullable. */
  datatype SpeakerHighlight = SpeakerHighlight(speaker: Option<string>, text: string, tag: Option<string>)

  /** The last meeting's summary as the notifier assembles it. */
  datatype MeetingSummary = MeetingSummary(
    platform: Option<string>,
    platformSpecificId: Option<string>,
    endTime: Option<int>,
    summary: Option<string>,
    goal: Option<string>,
    sentiment: Option<string>,
    blockers: seq<Entry>,
    deadlines: seq<Entry>,
    highlights: seq<SpeakerHighlight>,
    transcriptCount: nat)

  /** The clock reading and the two date patterns, "%Y-%m-%d %H:%M" and "%Y-%m-%d". */
  datatype Clock = Clock(now: int, stamp: int -> string, day: int -> string)

  /** The two renderings share one set of rendering functions. */
  datatype Style = Html | Plain

  // ---------------------------------------------------------------------------
  // Dates
  // ---------------------------------------------------------------------------

  const SecondsPerDay: int := 86400

  function FormatDate(dt: Option<int>, clock: Clock): (r: string)
    ensures dt.None? ==> r == "N/A"
    ensures dt.Some? ==> r == clock.stamp(dt.value)
  {
    if dt.None? then "N/A" else clock.stamp(dt.value)
  }

  function FormatDateShort(dt: Option<int>, clock: Clock): (r: string)
    ensures dt.None? ==> r == "N/A"
    ensures dt.Some? ==> r == clock.day(dt.value)
  {
    if dt.None? then "N/A" else clock.day(dt.value)
  }

  /** `timedelta.days` of the time left: the whole days, rounded down. */
  function DaysUntil(dt: Option<int>, now: int): (r: Option<int>)
    ensures r.None? <==> dt.None?
    ensures r.Some? ==> now + r.value * SecondsPerDay <= dt.value < now + r.value * SecondsPerDay + SecondsPerDay
  {
    if dt.None? then None else Some((dt.value - now) / SecondsPerDay)
  }

  /** The CSS class of a deadline card. */
  function Urgency(days: Option<int>): (r: string)
    ensures r == "urgent" <==> days.Some? && days.value <= 1
    ensures r == "warning" <==> days.Some? && 1 < days.value <= 3
    ensures r == "" <==> days.None? || 3 < days.value
  {
    if days.None? then ""
    else if days.value <= 1 then "urgent"
    else if days.value <= 3 then "warning"
    else ""
  }

  /** The marker after the due date. */
  function DueSuffix(style: Style, days: Option<int>): string {
    match days
    case None => ""
    case Some(d) =>
      if d == 0 then (if style == Html then " <strong>(Today!)</strong>" else " (Today!)")
      else if d == 1 then (if style == Html then " <strong>(Tomorrow!)</strong>" else " (Tomorrow!)")
      else " (" + IntToString(d) + " days)"
  }

  /** A deadline is urgent when it falls due within two days of now, and a warning
      within four; `timedelta.days` rounding down is what makes the bounds 2 and 4. */
  lemma UrgencyByDueTime(due: int, now: int)
    ensures Urgency(DaysUntil(Some(due), now)) == "urgent" <==> due < now + 2 * SecondsPerDay
    ensures (Urgency(DaysUntil(Some(due), now)) == "warning") <==>
              (now + 2 * SecondsPerDay <= due < now + 4 * SecondsPerDay)
    ensures Urgency(DaysUntil(Some(due), now)) == "" <==> now + 4 * SecondsPerDay <= due
  {
    var d := DaysUntil(Some(due), now).value;
    if d <= 1 {
      assert d * SecondsPerDay + SecondsPerDay <= 2 * SecondsPerDay;
    } else if d <= 3 {
      assert 2 * SecondsPerDay <= d * SecondsPerDay;
      assert d * SecondsPerDay + SecondsPerDay <= 4 * SecondsPerDay;
    } else {
      assert 4 * SecondsPerDay <= d * SecondsPerDay;
    }
  }

  /** The day-count marker tells the day count back: no two counts share one. */
  lemma DueSuffixDeterminesDays(style: Style, a: Option<int>, b: Option<int>)
    requires DueSuffix(style, a) == DueSuffix(style, b)
    ensures a == b
  {
    if a.Some? && a.value != 0 && a.value != 1 {
      DaysMarker(style, a.value, b);
    } else if b.Some? && b.value != 0 && b.value != 1 {
      DaysMarker(style, b.value, a);
    }
  }

  /** " (N days)" is none of the fixed markers, and it gives N back. */
  lemma DaysMarker(style: Style, d: int, other: Option<int>)
    requires d != 0 && d != 1
    requires DueSuffix(style, Some(d)) == DueSuffix(style, other)
    ensures other == Some(d)
  {
    var s := DueSuffix(style, Some(d));
    assert s[2] == IntToString(d)[0];
    assert IsDigit(s[2]) || s[2] == '-';
    match other
    case None =>
    case Some(e) =>
      if e != 0 && e != 1 {
        var n := IntToString(d);
        var m := IntToString(e);
        assert s == " (" + n + " days)";
        assert s == " (" + m + " days)";
        assert |n| == |m|;
        assert n == s[2..2 + |n|];
        assert m == s[2..2 + |m|];
        IntToStringInjective(d, e);
      }
  }

  /** The HTML marker for today and tomorrow is the plain one in bold; the
      day count is the same text in both. */
  lemma DueSuffixHtmlIsBoldPlain(days: Option<int>)
    ensures days == Some(0) || days == Some(1) ==>
              DueSuffix(Html, days) == " <strong>" + DueSuffix(Plain, days)[1..] + "</strong>"
    ensures days != Some(0) && days != Some(1) ==> DueSuffix(Html, days) == DueSuffix(Plain, days)
  {
    if days == Some(0) {
      assert DueSuffix(Plain, days)[1..] == "(Today!)";
    } else if days == Some(1) {
      assert DueSuffix(Plain, days)[1..] == "(Tomorrow!)";
    }
  }

  // ---------------------------------------------------------------------------
  // Upcoming deadlines
  // ---------------------------------------------------------------------------

  const NoDeadlinesHtml := "<div class=\"no-data\">No upcoming deadlines in the next 7 days. Great job! 🎉</div>"
  const NoDeadlinesPlain := "\nNo upcoming deadlines in the next 7 days. Great job! 🎉\n"

  function NoDeadlines(style: Style): string {
    if style == Html then NoDeadlinesHtml else NoDeadlinesPlain
  }

  /** The card (HTML) or the bullet (plain text) of one upcoming deadline: the
      description, then owner, priority, due date and meeting. */
  function DeadlineItem(style: Style, d: UpcomingDeadline, clock: Clock): string {
    DeadlineLead(style, d, clock) + Meetings.PyStr(d.description) + DeadlineDetails(style, d, clock)
  }

  /** What comes before the description: the card with its urgency class, or the bullet. */
  function DeadlineLead(style: Style, d: UpcomingDeadline, clock: Clock): string {
    if style == Html then
      "<div class=\"deadline-item " + Urgency(DaysUntil(d.dueDate, clock.now)) + "\">"
      + "<div class=\"deadline-description\">"
    else "\n• "
  }

  function DeadlineDetails(style: Style, d: UpcomingDeadline, clock: Clock): string {
    var days := DaysUntil(d.dueDate, clock.now);
    var meeting := Meetings.PyStr(d.meetingPlatform) + " meeting on " + FormatDateShort(d.meetingStartTime, clock);
    match style
    case Html =>
      "</div>"
      + "<div class=\"deadline-meta\">"
      + (if Meetings.Truthy(d.owner) then "👤 Owner: " + d.owner.value + "<br>" else "")
      + (if Meetings.Truthy(d.priority) then "⚡ Priority: " + d.priority.value + "<br>" else "")
      + "📅 Due: " + FormatDate(d.dueDate, clock) + DueSuffix(Html, days)
      + "<br>"
      + "📋 Meeting: " + meeting
      + "</div></div>"
    case Plain =>
      "\n"
      + (if Meetings.Truthy(d.owner) then "  Owner: " + d.owner.value + "\n" else "")
      + (if Meetings.Truthy(d.priority) then "  Priority: " + d.priority.value + "\n" else "")
      + "  Due: " + FormatDate(d.dueDate, clock) + DueSuffix(Plain, days)
      + "\n"
      + "  Meeting: " + meeting + "\n"
  }

  /** The items of all deadlines, in order. */
  function DeadlineItems(style: Style, ds: seq<UpcomingDeadline>, clock: Clock): string {
    if ds == [] then ""
    else DeadlineItems(style, ds[..|ds| - 1], clock) + DeadlineItem(style, ds[|ds| - 1], clock)
  }

  /** The deadlines section: its items, or the "no deadlines" message. */
  function DeadlinesSection(style: Style, ds: seq<UpcomingDeadline>, clock: Clock): string {
    var body := if ds == [] then NoDeadlines(style) else DeadlineItems(style, ds, clock);
    if style == Html then DeadlinesOpen + body + "</div>" else body
  }

  const DeadlinesOpen := "<div class=\"section\">" + "<div class=\"section-title\">⏰ Upcoming Deadlines</div>"

  /** Every deadline's card or bullet carries its description. */
  lemma DeadlineItemNamesIt(style: Style, d: UpcomingDeadline, clock: Clock)
    ensures Contains(DeadlineItem(style, d, clock), Meetings.PyStr(d.description))
  {
    ContainsMiddle(DeadlineLead(style, d, clock), Meetings.PyStr(d.description), DeadlineDetails(style, d, clock));
  }

  /** Every upcoming deadline is listed, in whichever format. */
  lemma {:induction false} DeadlinesListed(style: Style, ds: seq<UpcomingDeadline>, clock: Clock, i: nat)
    requires i < |ds|
    ensures Contains(DeadlineItems(style, ds, clock), Meetings.PyStr(ds[i].description))
    decreases |ds|
  {
    var init := ds[..|ds| - 1];
    var last := DeadlineItem(style, ds[|ds| - 1], clock);
    if i == |ds| - 1 {
      DeadlineItemNamesIt(style, ds[i], clock);
      ContainsLeft(DeadlineItems(style, init, clock), last, Meetings.PyStr(ds[i].description));
    } else {
      DeadlinesListed(style, init, clock, i);
      assert init[i] == ds[i];
      ContainsRight(DeadlineItems(style, init, clock), last, Meetings.PyStr(ds[i].description));
    }
  }

  /** The deadlines section lists every deadline, or says there are none. */
  lemma DeadlinesSectionLists(style: Style, ds: seq<UpcomingDeadline>, clock: Clock)
    ensures ds == [] ==> Contains(DeadlinesSection(style, ds, clock), NoDeadlines(style))
    ensures forall i :: 0 <= i < |ds| ==>
              Contains(DeadlinesSection(style, ds, clock), Meetings.PyStr(ds[i].description))
  {
    var body := if ds == [] then NoDeadlines(style) else DeadlineItems(style, ds, clock);
    if ds == [] {
      ContainsSelf(body);
    }
    forall i | 0 <= i < |ds|
      ensures Contains(body, Meetings.PyStr(ds[i].description))
    {
      DeadlinesListed(style, ds, clock, i);
    }
    if style == Html {
      forall p | Contains(body, p)
        ensures Contains(DeadlinesSection(style, ds, clock), p)
      {
        ContainsWithin(DeadlinesOpen, body, "</div>", p);
      }
    }
  }

  // ---------------------------------------------------------------------------
  // Blockers and deadlines mentioned in the meeting
  // ---------------------------------------------------------------------------

  /** A string entry as it is; an object by its "description", else printed whole. */
  function EntryText(e: Entry): (r: string)
    ensures e.Str? ==> r == e.s
    ensures e.Dict? && e.description.Some? ==> r == e.description.value
    ensures e.Dict? && e.description.None? ==> r == e.repr
  {
    match e
    case Str(s) => s
    case Dict(description, repr) => description.GetOr(repr)
  }

  /** A list item, `<li>…</li>` or `  - …`. */
  function EntryItem(style: Style, e: Entry): string {
    (if style == Html then "<li>" else "  - ") + EntryText(e) + (if style == Html then "</li>" else "\n")
  }

  function EntryItems(style: Style, es: seq<Entry>): string {
    if es == [] then ""
    else EntryItems(style, es[..|es| - 1]) + EntryItem(style, es[|es| - 1])
  }

  /** Which of the two metadata lists a block shows. */
  datatype EntryKind = Blockers | Mentioned

  function EntryListOpen(style: Style, kind: EntryKind): string {
    match (style, kind)
    case (Html, Blockers) =>
      "<div style=\"margin-top: 15px; padding: 10px; background-color: #fff3cd; border-left: 4px solid #ffc107; border-radius: 4px;\">"
      + "<strong>🚧 Blockers:</strong><ul style=\"margin: 5px 0; padding-left: 20px;\">"
    case (Html, Mentioned) =>
      "<div style=\"margin-top: 15px; padding: 10px; background-color: #d1ecf1; border-left: 4px solid #17a2b8; border-radius: 4px;\">"
      + "<strong>📅 Deadlines Mentioned:</strong><ul style=\"margin: 5px 0; padding-left: 20px;\">"
    case (Plain, Blockers) => "\nBlockers:\n"
    case (Plain, Mentioned) => "\nDeadlines Mentioned:\n"
  }

  function EntryListClose(style: Style): string {
    if style == Html then "</ul></div>" else ""
  }

  /** A list block, left out altogether when the list is empty. */
  function EntryList(style: Style, kind: EntryKind, es: seq<Entry>): string {
    if es == [] then "" else EntryListOpen(style, kind) + EntryItems(style, es) + EntryListClose(style)
  }

  /** Every entry's text is shown. */
  lemma {:induction false} EntriesListed(style: Style, es: seq<Entry>, i: nat)
    requires i < |es|
    ensures Contains(EntryItems(style, es), EntryText(es[i]))
    decreases |es|
  {
    var init := es[..|es| - 1];
    var last := EntryItem(style, es[|es| - 1]);
    if i == |es| - 1 {
      ContainsMiddle(if style == Html then "<li>" else "  - ", EntryText(es[i]), if style == Html then "</li>" else "\n");
      ContainsLeft(EntryItems(style, init), last, EntryText(es[i]));
    } else {
      EntriesListed(style, init, i);
      assert init[i] == es[i];
      ContainsRight(EntryItems(style, init), last, EntryText(es[i]));
    }
  }

  /** A block shows the text of each of its entries. */
  lemma EntryListShows(style: Style, kind: EntryKind, es: seq<Entry>, i: nat)
    requires i < |es|
    ensures Contains(EntryList(style, kind, es), EntryText(es[i]))
  {
    EntriesListed(style, es, i);
    ContainsWithin(EntryListOpen(style, kind), EntryItems(style, es), EntryListClose(style), EntryText(es[i]));
  }

  // ---------------------------------------------------------------------------
  // Speaker highlights
  // ---------------------------------------------------------------------------

  const MaxHighlights := 5
  const MaxHighlightText := 200

  /** `None.lower()` on a highlight whose label is null. */
  const LabelError := "AttributeError: 'NoneType' object has no attribute 'lower'"

  /** The emoji of a highlight label, compared in lower case. */
  function EmojiOf(tag: string): (r: string)
    ensures r == "📊" <==> Lower(tag) == "обновление"
    ensures r == "✅" <==> Lower(tag) == "решение"
    ensures r == "🚧" <==> Lower(tag) == "блокер"
    ensures r == "💬" <==> Lower(tag) !in {"обновление", "решение", "блокер"}
  {
    var key := Lower(tag);
    if key == "обновление" then "📊"
    else if key == "решение" then "✅"
    else if key == "блокер" then "🚧"
    else "💬"
  }

  /** A label and its lower-case form get the same emoji. */
  lemma EmojiOfLowered(tag: string)
    ensures EmojiOf(Lower(tag)) == EmojiOf(tag)
  {
    LowerIdempotent(tag);
  }

  const HighlightOpen := "<div style=\"margin-bottom: 10px; padding: 8px; background-color: #f8f9fa; border-radius: 4px;\">"

  /** The start of one highlight: in HTML its box, then the speaker line when
      there is a speaker, with the emoji of the label. */
  function HighlightHead(style: Style, tag: string, speaker: Option<string>): string {
    var emoji := EmojiOf(tag);
    var line :=
      if !Meetings.Truthy(speaker) then ""
      else if style == Html then "<strong>" + emoji + " " + speaker.value + ":</strong> "
      else "  " + emoji + " " + speaker.value + ": ";
    if style == Html then HighlightOpen + line else line
  }

  /** The end of one highlight: the first 200 characters of the text, with "..."
      in HTML when the text was cut, then the closing tag or a line break. */
  function HighlightTail(style: Style, text: string): (tail: string)
    ensures style == Html && |text| <= MaxHighlightText ==> tail == text + "</div>"
    ensures style == Html && |text| > MaxHighlightText ==> tail == text[..MaxHighlightText] + "...</div>"
    ensures style == Plain && |text| <= MaxHighlightText ==> tail == text + "\n"
    ensures style == Plain && |text| > MaxHighlightText ==> tail == text[..MaxHighlightText] + "\n"
  {
    var cut := Take(text, MaxHighlightText);
    if style == Html then cut + ((if |text| > MaxHighlightText then "..." else "") + "</div>")
    else cut + "\n"
  }

  /** One highlight: the speaker line when there is a speaker, then the first 200
      characters of the text; HTML marks a cut text with "...". */
  function HighlightItem(style: Style, h: SpeakerHighlight): (r: Result<string>)
    ensures r.Ok? <==> h.tag.Some?
    ensures r.Err? ==> r.message == LabelError
    ensures r.Ok? ==> EndsWith(r.value, HighlightTail(style, h.text))
  {
    if h.tag.None? then Err(LabelError)
    else
      var head := HighlightHead(style, h.tag.value, h.speaker);
      var tail := HighlightTail(style, h.text);
      EndsWithAppend(head, tail);
      Ok(head + tail)
  }

  function HighlightItems(style: Style, hs: seq<SpeakerHighlight>): Result<string> {
    if hs == [] then Ok("")
    else
      match HighlightItems(style, hs[..|hs| - 1])
      case Err(e) => Err(e)
      case Ok(init) =>
        match HighlightItem(style, hs[|hs| - 1])
        case Err(e) => Err(e)
        case Ok(last) => Ok(init + last)
  }

  /** `highlights[:5]` */
  function TopHighlights(hs: seq<SpeakerHighlight>): (r: seq<SpeakerHighlight>)
    ensures |r| <= MaxHighlights && |r| <= |hs| && r == hs[..|r|]
    ensures |hs| <= MaxHighlights ==> r == hs
  {
    if |hs| <= MaxHighlights then hs else hs[..MaxHighlights]
  }

  function HighlightsOpen(style: Style): string {
    if style == Html then
      "<div style=\"margin-top: 15px;\">" + "<strong>💡 Key Highlights:</strong>" + "<div style=\"margin-top: 10px;\">"
    else "\nKey Highlights:\n"
  }

  function HighlightsClose(style: Style): string {
    if style == Html then "</div></div>" else ""
  }

  /** The highlights block of the first five highlights; none when there are none. */
  function HighlightsBlock(style: Style, hs: seq<SpeakerHighlight>): Result<string> {
    if hs == [] then Ok("")
    else
      match HighlightItems(style, TopHighlights(hs))
      case Err(e) => Err(e)
      case Ok(items) => Ok(HighlightsOpen(style) + items + HighlightsClose(style))
  }

  /** The highlights render unless one of them has a null label. */
  lemma {:induction false} HighlightItemsFail(style: Style, hs: seq<SpeakerHighlight>)
    ensures HighlightItems(style, hs).Err? <==> exists i :: 0 <= i < |hs| && hs[i].tag.None?
    ensures HighlightItems(style, hs).Err? ==> HighlightItems(style, hs).message == LabelError
    decreases |hs|
  {
    if hs != [] {
      var init := hs[..|hs| - 1];
      HighlightItemsFail(style, init);
      if exists i :: 0 <= i < |init| && init[i].tag.None? {
        var i :| 0 <= i < |init| && init[i].tag.None?;
        assert hs[i] == init[i];
      }
      if exists i :: 0 <= i < |hs| && hs[i].tag.None? {
        var i :| 0 <= i < |hs| && hs[i].tag.None?;
        if i < |init| {
          assert init[i] == hs[i];
        }
      }
    }
  }

  /** Only the first five highlights are looked at: a null label further down
      does not fail the e-mail. */
  lemma HighlightsBlockFail(style: Style, hs: seq<SpeakerHighlight>)
    ensures HighlightsBlock(style, hs).Err? <==>
              exists i :: 0 <= i < |hs| && i < MaxHighlights && hs[i].tag.None?
    ensures HighlightsBlock(style, hs).Err? ==> HighlightsBlock(style, hs).message == LabelError
  {
    var top := TopHighlights(hs);
    HighlightItemsFail(style, top);
    if exists i :: 0 <= i < |hs| && i < MaxHighlights && hs[i].tag.None? {
      var i :| 0 <= i < |hs| && i < MaxHighlights && hs[i].tag.None?;
      assert top[i] == hs[i];
    }
    if exists i :: 0 <= i < |top| && top[i].tag.None? {
      var i :| 0 <= i < |top| && top[i].tag.None?;
      assert hs[i] == top[i];
    }
  }

  /** Nothing past the fifth highlight changes the block. */
  lemma HighlightsPastFifthIgnored(style: Style, hs: seq<SpeakerHighlight>, more: seq<SpeakerHighlight>)
    requires |hs| >= MaxHighlights
    ensures HighlightsBlock(style, hs + more) == HighlightsBlock(style, hs)
  {
    assert TopHighlights(hs + more) == TopHighlights(hs);
  }

  // ---------------------------------------------------------------------------
  // The last meeting summary
  // ---------------------------------------------------------------------------

  const NoSummaryHtml := "<div class=\"no-data\">No meeting summaries available yet.</div>"
  const NoSummaryPlain := "\nNo meeting summaries available yet.\n"

  function NoSummary(style: Style): string {
    if style == Html then NoSummaryHtml else NoSummaryPlain
  }

  /** A metadata line shown only when the value is truthy. */
  function MetaLine(style: Style, emoji: string, name: string, value: Option<string>): string {
    if !Meetings.Truthy(value) then ""
    else if style == Html then emoji + " " + name + ": " + value.value + "<br>"
    else name + ": " + value.value + "\n"
  }

  /** Date, platform, the optional id, goal, sentiment and segment count, then the summary text. */
  function SummaryHead(style: Style, s: MeetingSummary, clock: Clock): string {
    var count := if s.transcriptCount == 0 then None else Some(NatToString(s.transcriptCount));
    var lines :=
      MetaLine(style, "🔗", "Meeting ID", s.platformSpecificId)
      + MetaLine(style, "🎯", "Goal", s.goal)
      + MetaLine(style, "😊", "Sentiment", s.sentiment)
      + MetaLine(style, "💬", "Transcript segments", count);
    match style
    case Html =>
      "<div class=\"meeting-summary\">"
      + "<div class=\"meeting-meta\">"
      + "📅 Date: " + FormatDate(s.endTime, clock) + "<br>"
      + "🌐 Platform: " + Meetings.PyStr(s.platform) + "<br>"
      + lines
      + "</div>"
      + "<div class=\"summary-text\">"
      + "<strong>Summary:</strong><br>"
      + Meetings.PyStr(s.summary)
      + "</div>"
    case Plain =>
      "\nDate: " + FormatDate(s.endTime, clock) + "\n"
      + "Platform: " + Meetings.PyStr(s.platform) + "\n"
      + lines
      + "\nSummary:\n" + Meetings.PyStr(s.summary) + "\n"
  }

  /** The summary head, the blockers, the deadlines mentioned and the highlights. */
  function SummaryBody(style: Style, s: MeetingSummary, clock: Clock): Result<string> {
    match HighlightsBlock(style, s.highlights)
    case Err(e) => Err(e)
    case Ok(highlights) =>
      var body := SummaryHead(style, s, clock) + EntryList(style, Blockers, s.blockers)
                  + EntryList(style, Mentioned, s.deadlines) + highlights;
      Ok(if style == Html then body + "</div>" else body)
  }

  function SummaryOpen(style: Style): string {
    if style == Html then "<div class=\"section\">" + "<div class=\"section-title\">📝 Last Meeting Summary</div>"
    else "\n\nLAST MEETING SUMMARY\n" + "--------------------\n"
  }

  function SummarySection(style: Style, s: Option<MeetingSummary>, clock: Clock): Result<string> {
    var inner :=
      if s.None? then Ok(NoSummary(style))
      else SummaryBody(style, s.value, clock);
    match inner
    case Err(e) => Err(e)
    case Ok(body) => Ok(if style == Html then SummaryOpen(style) + body + "</div>" else SummaryOpen(style) + body)
  }

  /** Every blocker of the summary is shown. */
  lemma SummaryShowsBlockers(style: Style, s: MeetingSummary, clock: Clock, i: nat)
    requires SummarySection(style, Some(s), clock).Ok?
    requires i < |s.blockers|
    ensures Contains(SummarySection(style, Some(s), clock).value, EntryText(s.blockers[i]))
  {
    var p := EntryText(s.blockers[i]);
    var highlights := HighlightsBlock(style, s.highlights).value;
    var head := SummaryHead(style, s, clock);
    var blockers := EntryList(style, Blockers, s.blockers);
    var mentioned := EntryList(style, Mentioned, s.deadlines);
    EntryListShows(style, Blockers, s.blockers, i);
    ContainsLeft(head, blockers, p);
    ContainsRight(head + blockers, mentioned, p);
    ContainsRight(head + blockers + mentioned, highlights, p);
    var body := head + blockers + mentioned + highlights;
    if style == Html {
      ContainsRight(body, "</div>", p);
      ContainsWithin(SummaryOpen(style), body + "</div>", "</div>", p);
    } else {
      ContainsLeft(SummaryOpen(style), body, p);
    }
  }

  // ---------------------------------------------------------------------------
  // The whole e-mail
  // ---------------------------------------------------------------------------

  /** The HTML document up to the greeting's paragraph: header, the inline style
      sheet and the banner. */
  const HtmlTop :=
    "\n    <!DOCTYPE html>\n    <html>\n    <head>\n        <meta charset=\"UTF-8\">\n        <style>\n            body {\n                font-family: Arial, sans-serif;\n                line-height: 1.6;\n                color: #333;\n                max-width: 600px;\n                margin: 0 auto;\n                padding: 20px;\n            }\n            .header {\n                background-color: #4A90E2;\n                color: white;\n                padding: 20px;\n                border-radius: 5px 5px 0 0;\n            }\n            .content {\n                background-color: #f9f9f9;\n                padding: 20px;\n                border-radius: 0 0 5px 5px;\n            }\n            .section {\n                margin-bottom: 30px;\n            }\n            .section-title {\n                color: #4A90E2;\n                font-size: 20px;\n                font-weight: bold;\n                margin-bottom: 15px;\n                border-bottom: 2px solid #4A90E2;\n                padding-bottom: 5px;\n            }\n            .deadline-item {\n                background-color: white;\n                padding: 15px;\n                margin-bottom: 10px;\n                border-left: 4px solid #4A90E2;\n                border-radius: 4px;\n            }\n            .deadline-item.urgent {\n                border-left-color: #E74C3C;\n            }\n            .deadline-item.warning {\n                border-left-color: #F39C12;\n            }\n            .deadline-description {\n                font-weight: bold;\n                margin-bottom: 5px;\n            }\n            .deadline-meta {\n                color: #666;\n                font-size: 14px;\n            }\n            .meeting-summary {\n                background-color: white;\n                padding: 15px;\n                border-radius: 4px;\n            }\n            .meeting-meta {\n                color: #666;\n                font-size: 14px;\n                margin-bottom: 10px;\n            }\n            .summary-text {\n                white-space: pre-wrap;\n            }\n            .no-data {\n                color: #999;\n                font-style: italic;\n            }\n            .footer {\n                margin-top: 30px;\n                padding-top: 20px;\n                border-top: 1px solid #ddd;\n                color: #666;\n                font-size: 12px;\n                text-align: center;\n            }\n        </style>\n    </head>\n    <body>\n        <div class=\"header\">\n            <h1>📅 Daily Reminder</h1>\n            "

  const HtmlBannerEnd := "\n" + "        </div>\n" + "        <div class=\"content\">\n" + "    "

  const HtmlFooter :=
    "\n"
    + "            <div class=\"footer\">\n"
    + "                <p>This is an automated email from AI Scrum Master.</p>\n"
    + "                <p>You are receiving this because you have active meetings with deadlines.</p>\n"
    + "            </div>\n"
    + "        </div>\n"
    + "    </body>\n"
    + "    </html>\n"
    + "    "

  const PlainFooter :=
    "\n\n---\n"
    + "This is an automated email from AI Scrum Master.\n"
    + "You are receiving this because you have active meetings with deadlines.\n"

  /** The user's name, or "there" when it is missing or empty. */
  function Greeting(userName: Option<string>): string {
    Meetings.OrElse(userName, "there")
  }

  function Hello(name: string): string {
    "Hello " + name + "!"
  }

  /** The greeting as it appears: its own paragraph in HTML, its own line between
      blank lines in plain text. */
  function GreetingLine(style: Style, name: string): string {
    if style == Html then "<p>" + Hello(name) + "</p>" else "\n\n" + Hello(name) + "\n\n"
  }

  /** Everything before the deadlines: the document head or the title, and the greeting. */
  function Opening(style: Style, name: string): string {
    if style == Html then HtmlTop + GreetingLine(Html, name) + HtmlBannerEnd
    else "\nDaily Reminder\n==============" + GreetingLine(Plain, name) + "UPCOMING DEADLINES\n------------------\n"
  }

  function Footer(style: Style): string {
    if style == Html then HtmlFooter else PlainFooter
  }

  /** The e-mail, or the error raised while rendering it. */
  function Email(style: Style, userName: Option<string>, ds: seq<UpcomingDeadline>,
                 s: Option<MeetingSummary>, clock: Clock): Result<string>
  {
    match SummarySection(style, s, clock)
    case Err(e) => Err(e)
    case Ok(summary) =>
      Ok(Opening(style, Greeting(userName)) + DeadlinesSection(style, ds, clock) + summary + Footer(style))
  }

  /** The e-mail fails, in both formats alike, exactly when one of the first five
      highlights of the summary has a null label. */
  lemma EmailFails(style: Style, userName: Option<string>, ds: seq<UpcomingDeadline>,
                   s: Option<MeetingSummary>, clock: Clock)
    ensures Email(style, userName, ds, s, clock).Err? <==>
              s.Some? && exists i :: 0 <= i < |s.value.highlights| && i < MaxHighlights && s.value.highlights[i].tag.None?
    ensures Email(style, userName, ds, s, clock).Err? ==> Email(style, userName, ds, s, clock).message == LabelError
  {
    if s.Some? {
      HighlightsBlockFail(style, s.value.highlights);
    }
  }

  /** Both renderings succeed or fail together. */
  lemma FormatsFailTogether(userName: Option<string>, ds: seq<UpcomingDeadline>, s: Option<MeetingSummary>, clock: Clock)
    ensures Email(Html, userName, ds, s, clock).Ok? <==> Email(Plain, userName, ds, s, clock).Ok?
  {
    EmailFails(Html, userName, ds, s, clock);
    EmailFails(Plain, userName, ds, s, clock);
  }

  /** The e-mail greets the user by name, or as "there", once, in its own paragraph
      or line. */
  lemma EmailGreets(style: Style, userName: Option<string>, ds: seq<UpcomingDeadline>,
                    s: Option<MeetingSummary>, clock: Clock)
    requires Email(style, userName, ds, s, clock).Ok?
    ensures Contains(Email(style, userName, ds, s, clock).value, GreetingLine(style, Greeting(userName)))
  {
    var name := Greeting(userName);
    var line := GreetingLine(style, name);
    var opening := Opening(style, name);
    if style == Html {
      ContainsMiddle(HtmlTop, line, HtmlBannerEnd);
    } else {
      ContainsMiddle("\nDaily Reminder\n==============", line, "UPCOMING DEADLINES\n------------------\n");
    }
    InEmail(style, userName, ds, s, clock, opening, line);
  }

  /** Without a usable name the greeting is "Hello there!". */
  lemma GreetsThere(userName: Option<string>)
    requires !Meetings.Truthy(userName)
    ensures Hello(Greeting(userName)) == "Hello there!"
  {
  }

  /** Every upcoming deadline's description is in the e-mail; with none, the
      "no upcoming deadlines" message is. */
  lemma EmailListsDeadlines(style: Style, userName: Option<string>, ds: seq<UpcomingDeadline>,
                            s: Option<MeetingSummary>, clock: Clock)
    requires Email(style, userName, ds, s, clock).Ok?
    ensures ds == [] ==> Contains(Email(style, userName, ds, s, clock).value, NoDeadlines(style))
    ensures forall i :: 0 <= i < |ds| ==>
              Contains(Email(style, userName, ds, s, clock).value, Meetings.PyStr(ds[i].description))
  {
    var section := DeadlinesSection(style, ds, clock);
    DeadlinesSectionLists(style, ds, clock);
    if ds == [] {
      InEmail(style, userName, ds, s, clock, section, NoDeadlines(style));
    }
    forall i | 0 <= i < |ds|
      ensures Contains(Email(style, userName, ds, s, clock).value, Meetings.PyStr(ds[i].description))
    {
      InEmail(style, userName, ds, s, clock, section, Meetings.PyStr(ds[i].description));
    }
  }

  /** Without a meeting summary the summary section says so. */
  lemma SectionWithoutSummary(style: Style, clock: Clock)
    ensures SummarySection(style, None, clock).Ok?
    ensures Contains(SummarySection(style, None, clock).value, NoSummary(style))
  {
    if style == Html {
      ContainsMiddle(SummaryOpen(style), NoSummary(style), "</div>");
    } else {
      ContainsSelf(NoSummary(style));
      ContainsLeft(SummaryOpen(style), NoSummary(style), NoSummary(style));
    }
  }

  /** Without a meeting summary the e-mail says so. */
  lemma EmailWithoutSummary(style: Style, userName: Option<string>, ds: seq<UpcomingDeadline>, clock: Clock)
    ensures Email(style, userName, ds, None, clock).Ok?
    ensures Contains(Email(style, userName, ds, None, clock).value, NoSummary(style))
  {
    SectionWithoutSummary(style, clock);
    InEmail(style, userName, ds, None, clock, SummarySection(style, None, clock).value, NoSummary(style));
  }

  /** Every blocker of the summary is in the e-mail. */
  lemma EmailListsBlockers(style: Style, userName: Option<string>, ds: seq<UpcomingDeadline>,
                           s: MeetingSummary, clock: Clock, i: nat)
    requires Email(style, userName, ds, Some(s), clock).Ok?
    requires i < |s.blockers|
    ensures Contains(Email(style, userName, ds, Some(s), clock).value, EntryText(s.blockers[i]))
  {
    SummaryShowsBlockers(style, s, clock, i);
    InEmail(style, userName, ds, Some(s), clock, SummarySection(style, Some(s), clock).value, EntryText(s.blockers[i]));
  }

  /** What the opening, the deadlines section or the summary section shows, the e-mail shows. */
  lemma InEmail(style: Style, userName: Option<string>, ds: seq<UpcomingDeadline>,
                s: Option<MeetingSummary>, clock: Clock, part: string, p: string)
    requires Email(style, userName, ds, s, clock).Ok?
    requires part == Opening(style, Greeting(userName)) || part == DeadlinesSection(style, ds, clock)
             || part == SummarySection(style, s, clock).value
    requires Contains(part, p)
    ensures Contains(Email(style, userName, ds, s, clock).value, p)
  {
    var opening := Opening(style, Greeting(userName));
    var deadlines := DeadlinesSection(style, ds, clock);
    var summary := SummarySection(style, s, clock).value;
    if part == opening {
      ContainsRight(opening, deadlines, p);
    } else if part == deadlines {
      ContainsLeft(opening, deadlines, p);
    }
    if part == opening || part == deadlines {
      ContainsRight(opening + deadlines, summary, p);
    } else {
      ContainsLeft(opening + deadlines, summary, p);
    }
    ContainsRight(opening + deadlines + summary, Footer(style), p);
  }

  // ---------------------------------------------------------------------------
  // String helpers
  // ---------------------------------------------------------------------------

  predicate EndsWith(s: string, p: string) {
    |p| <= |s| && s[|s| - |p|..] == p
  }

  lemma EndsWithAppend(a: string, b: string)
    ensures EndsWith(a + b, b)
  {
    assert (a + b)[|a|..] == b;
  }

  lemma ContainsSelf(p: string)
    ensures Contains(p, p)
  {
    assert p[0..0 + |p|] == p;
    assert OccursAt(p, p, 0);
  }

  lemma ContainsLeft(a: string, s: string, p: string)
    requires Contains(s, p)
    ensures Contains(a + s, p)
  {
    var i: nat :| OccursAt(s, p, i);
    assert (a + s)[|a| + i..|a| + i + |p|] == s[i..i + |p|];
    assert OccursAt(a + s, p, |a| + i);
  }

  lemma ContainsRight(s: string, b: string, p: string)
    requires Contains(s, p)
    ensures Contains(s + b, p)
  {
    var i: nat :| OccursAt(s, p, i);
    assert (s + b)[i..i + |p|] == s[i..i + |p|];
    assert OccursAt(s + b, p, i);
  }

  lemma ContainsWithin(a: string, s: string, b: string, p: string)
    requires Contains(s, p)
    ensures Contains(a + s + b, p)
  {
    ContainsLeft(a, s, p);
    ContainsRight(a + s, b, p);
  }

  lemma ContainsMiddle(a: string, p: string, b: string)
    ensures Contains(a + p + b, p)
  {
    ContainsSelf(p);
    ContainsWithin(a, p, b, p);
  }

  lemma Assoc(a: string, b: string, c: string)
    ensures a + b + c == a + (b + c)
  {
  }

  lemma Regroup(a: string, b: string, c: string, d: string)
    ensures a + b + c + d == a + (b + c + d)
  {
  }

  lemma AppendEmpty(a: string)
    ensures a + "" == a
  {
  }

  // ---------------------------------------------------------------------------
  // The formatters
  // ---------------------------------------------------------------------------

  /** `format_email_html`: the e-mail as an HTML document. */
  method FormatEmailHtml(userName: Option<string>, upcoming: seq<UpcomingDeadline>,
                         lastSummary: Option<MeetingSummary>, clock: Clock)
    returns (r: Result<string>)
    ensures r == Email(Html, userName, upcoming, lastSummary, clock)
  {
    var name := Greeting(userName);
    var html := Opening(Html, name);
    html := AppendDeadlinesSection(Html, html, upcoming, clock);
    var withSummary := AppendSummarySection(Html, html, lastSummary, clock);
    if withSummary.Err? {
      return Err(withSummary.message);
    }
    html := withSummary.value + HtmlFooter;
    return Ok(html);
  }

  /** `format_email_text`: the same e-mail as plain text. */
  method FormatEmailText(userName: Option<string>, upcoming: seq<UpcomingDeadline>,
                         lastSummary: Option<MeetingSummary>, clock: Clock)
    returns (r: Result<string>)
    ensures r == Email(Plain, userName, upcoming, lastSummary, clock)
  {
    var name := Greeting(userName);
    var text := Opening(Plain, name);
    text := AppendDeadlinesSection(Plain, text, upcoming, clock);
    var withSummary := AppendSummarySection(Plain, text, lastSummary, clock);
    if withSummary.Err? {
      return Err(withSummary.message);
    }
    text := withSummary.value + PlainFooter;
    return Ok(text);
  }

  /** The deadlines section appended to the e-mail so far. */
  method AppendDeadlinesSection(style: Style, out: string, upcoming: seq<UpcomingDeadline>, clock: Clock)
    returns (r: string)
    ensures r == out + DeadlinesSection(style, upcoming, clock)
  {
    r := out;
    if style == Html {
      r := r + "<div class=\"section\">";
      r := r + "<div class=\"section-title\">⏰ Upcoming Deadlines</div>";
      Assoc(out, "<div class=\"section\">", "<div class=\"section-title\">⏰ Upcoming Deadlines</div>");
    } else {
      AppendEmpty(out);
    }
    ghost var open := r;
    ghost var body;
    if upcoming != [] {
      r := AppendDeadlines(style, r, upcoming, clock);
      body := DeadlineItems(style, upcoming, clock);
    } else {
      r := r + NoDeadlines(style);
      body := NoDeadlines(style);
    }
    if style == Html {
      r := r + "</div>";
      Regroup(out, DeadlinesOpen, body, "</div>");
    }
  }

  /** The summary section appended to the e-mail so far, or the error raised
      while rendering the highlights. */
  method AppendSummarySection(style: Style, out: string, lastSummary: Option<MeetingSummary>, clock: Clock)
    returns (r: Result<string>)
    ensures SummarySection(style, lastSummary, clock).Err? ==> r == SummarySection(style, lastSummary, clock)
    ensures SummarySection(style, lastSummary, clock).Ok? ==> r == Ok(out + SummarySection(style, lastSummary, clock).value)
  {
    var acc := out;
    var first := if style == Html then "<div class=\"section\">" else "\n\nLAST MEETING SUMMARY\n";
    var second :=
      if style == Html then "<div class=\"section-title\">📝 Last Meeting Summary</div>" else "--------------------\n";
    acc := acc + first;
    acc := acc + second;
    Assoc(out, first, second);
    ghost var body;
    if lastSummary.Some? {
      var rendered := RenderSummary(style, lastSummary.value, clock);
      if rendered.Err? {
        return Err(rendered.message);
      }
      acc := acc + rendered.value;
      body := rendered.value;
    } else {
      acc := acc + NoSummary(style);
      body := NoSummary(style);
    }
    if style == Html {
      acc := acc + "</div>";
      Regroup(out, SummaryOpen(style), body, "</div>");
    } else {
      Assoc(out, SummaryOpen(style), body);
    }
    return Ok(acc);
  }

  /** The loop over the upcoming deadlines. */
  method AppendDeadlines(style: Style, out: string, ds: seq<UpcomingDeadline>, clock: Clock)
    returns (r: string)
    ensures r == out + DeadlineItems(style, ds, clock)
  {
    r := out;
    for i := 0 to |ds|
      invariant r == out + DeadlineItems(style, ds[..i], clock)
    {
      assert ds[..i + 1][..i] == ds[..i];
      var item := DeadlineItem(style, ds[i], clock);
      assert DeadlineItems(style, ds[..i + 1], clock) == DeadlineItems(style, ds[..i], clock) + item;
      Assoc(out, DeadlineItems(style, ds[..i], clock), item);
      r := r + item;
    }
    assert ds[..|ds|] == ds;
  }

  /** The loop over the blockers or the mentioned deadlines. */
  method AppendEntries(style: Style, out: string, es: seq<Entry>) returns (r: string)
    ensures r == out + EntryItems(style, es)
  {
    r := out;
    for i := 0 to |es|
      invariant r == out + EntryItems(style, es[..i])
    {
      assert es[..i + 1][..i] == es[..i];
      var item := EntryItem(style, es[i]);
      assert EntryItems(style, es[..i + 1]) == EntryItems(style, es[..i]) + item;
      Assoc(out, EntryItems(style, es[..i]), item);
      r := r + item;
    }
    assert es[..|es|] == es;
  }

  /** The loop over the first five highlights; it stops at a null label. */
  method AppendHighlights(style: Style, out: string, hs: seq<SpeakerHighlight>) returns (r: Result<string>)
    ensures HighlightItems(style, TopHighlights(hs)).Err? ==> r == HighlightItems(style, TopHighlights(hs))
    ensures HighlightItems(style, TopHighlights(hs)).Ok? ==> r == Ok(out + HighlightItems(style, TopHighlights(hs)).value)
  {
    var top := TopHighlights(hs);
    var acc := out;
    ghost var items := "";
    AppendEmpty(out);
    for i := 0 to |top|
      invariant HighlightItems(style, top[..i]) == Ok(items)
      invariant acc == out + items
    {
      var item := HighlightItem(style, top[i]);
      HighlightItemsStep(style, top, i, items);
      if item.Err? {
        HighlightItemsErrPersists(style, top, i + 1);
        return Err(item.message);
      }
      Assoc(out, items, item.value);
      acc := acc + item.value;
      items := items + item.value;
    }
    assert top[..|top|] == top;
    r := Ok(acc);
  }

  /** One more highlight: its error, or the items so far followed by it. */
  lemma HighlightItemsStep(style: Style, hs: seq<SpeakerHighlight>, i: nat, items: string)
    requires i < |hs|
    requires HighlightItems(style, hs[..i]) == Ok(items)
    ensures HighlightItem(style, hs[i]).Err? ==> HighlightItems(style, hs[..i + 1]) == Err(HighlightItem(style, hs[i]).message)
    ensures HighlightItem(style, hs[i]).Ok? ==> HighlightItems(style, hs[..i + 1]) == Ok(items + HighlightItem(style, hs[i]).value)
  {
    assert hs[..i + 1][..i] == hs[..i];
  }

  /** Once a prefix of the highlights fails, the whole list fails with that error. */
  lemma {:induction false} HighlightItemsErrPersists(style: Style, hs: seq<SpeakerHighlight>, n: nat)
    requires n <= |hs|
    requires HighlightItems(style, hs[..n]).Err?
    ensures HighlightItems(style, hs) == HighlightItems(style, hs[..n])
    decreases |hs| - n
  {
    if n < |hs| {
      assert hs[..n + 1][..n] == hs[..n];
      HighlightItemsErrPersists(style, hs, n + 1);
    } else {
      assert hs[..n] == hs;
    }
  }

  /** The body of the summary section: head, the two lists, the highlights. */
  method RenderSummary(style: Style, s: MeetingSummary, clock: Clock) returns (r: Result<string>)
    ensures r == SummaryBody(style, s, clock)
  {
    var out := SummaryHead(style, s, clock);
    ghost var expected := out;
    if s.blockers != [] {
      ghost var before := out;
      out := out + EntryListOpen(style, Blockers);
      out := AppendEntries(style, out, s.blockers);
      out := out + EntryListClose(style);
      Regroup(before, EntryListOpen(style, Blockers), EntryItems(style, s.blockers), EntryListClose(style));
    } else {
      AppendEmpty(out);
    }
    expected := expected + EntryList(style, Blockers, s.blockers);
    assert out == expected;
    if s.deadlines != [] {
      ghost var before := out;
      out := out + EntryListOpen(style, Mentioned);
      out := AppendEntries(style, out, s.deadlines);
      out := out + EntryListClose(style);
      Regroup(before, EntryListOpen(style, Mentioned), EntryItems(style, s.deadlines), EntryListClose(style));
    } else {
      AppendEmpty(out);
    }
    expected := expected + EntryList(style, Mentioned, s.deadlines);
    assert out == expected;
    if s.highlights != [] {
      ghost var before := out;
      out := out + HighlightsOpen(style);
      var withHighlights := AppendHighlights(style, out, s.highlights);
      if withHighlights.Err? {
        return Err(withHighlights.message);
      }
      out := withHighlights.value + HighlightsClose(style);
      Regroup(before, HighlightsOpen(style), HighlightItems(style, TopHighlights(s.highlights)).value, HighlightsClose(style));
    } else {
      AppendEmpty(out);
    }
    if style == Html {
      out := out + "</div>";
    }
    return Ok(out);
  }
}
