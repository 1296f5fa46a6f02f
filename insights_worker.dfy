/** The meeting-insights worker: picks a finished meeting, asks the summary model for an
    insights document, embeds the transcript and replaces the meeting's derived rows.
    The summary model, the embedding model, the clock, the roster file and ISO date
    parsing are parameters. */
module InsightsWorker {
  import opened Wrappers
  import opened Text
  import opened Meetings
  import opened ChunkStore

  // ---------------------------------------------------------------------------
  // Configuration
  // ---------------------------------------------------------------------------

  /** The entries of a comma-separated setting, each stripped, empty ones dropped. */
  function StrippedNonEmpty(parts: seq<string>): (r: seq<string>)
    ensures forall s :: s in r <==> s != "" && exists p :: p in parts && Strip(p) == s
  {
    if parts == [] then []
    else
      var rest := StrippedNonEmpty(parts[1..]);
      assert forall p :: p in parts <==> p == parts[0] || p in parts[1..];
      if Strip(parts[0]) != "" then [Strip(parts[0])] + rest else rest
  }

  /** TARGET_STATUSES from the INSIGHTS_TARGET_STATUSES setting. */
  function TargetStatuses(setting: string): (statuses: seq<string>)
    ensures forall s :: s in statuses <==> s != "" && exists p :: p in SplitOn(setting, ',') && Strip(p) == s
    ensures forall s :: s in statuses ==> ',' !in s
  {
    var parts := SplitOn(setting, ',');
    var r := StrippedNonEmpty(parts);
    forall s | s in r ensures ',' !in s {
      var p :| p in parts && Strip(p) == s;
      StripInside(p);
    }
    r
  }

  lemma StripInside(s: string)
    ensures forall c :: c in Strip(s) ==> c in s
  {
    var t := TrimStart(s);
    TrimStartShape(s);
    TrimEndShape(t);
    forall c | c in Strip(s) ensures c in s {
      var k :| 0 <= k < |Strip(s)| && Strip(s)[k] == c;
      assert Strip(s)[k] == t[k];
      assert t[k] == s[|s| - |t| + k];
    }
  }

  /** A setting that is a single status without commas or whitespace, such as the default
      "completed", yields exactly that status. */
  lemma SingleTargetStatus(setting: string)
    requires setting != "" && ',' !in setting && NoSpace(setting)
    ensures TargetStatuses(setting) == [setting]
  {
    assert IndexOf(setting, ',') == |setting|;
    assert SplitOn(setting, ',') == [setting];
    TrimStartShape(setting);
    TrimEndShape(setting);
    assert TrimStart(setting) == setting;
    assert TrimEnd(setting) == setting;
    assert StrippedNonEmpty([setting]) == [Strip(setting)] + StrippedNonEmpty([]);
  }

  const DefaultSegmentLimit := 300
  const EmbeddingBatchSize := 50

  // ---------------------------------------------------------------------------
  // chunk_list and generate_embeddings
  // ---------------------------------------------------------------------------

  /** items split into consecutive batches of `size`, the last one possibly shorter. */
  function ChunkList<T>(items: seq<T>, size: nat): (batches: seq<seq<T>>)
    requires size > 0
    ensures forall i :: 0 <= i < |batches| ==> 0 < |batches[i]| <= size
    ensures forall i :: 0 <= i < |batches| - 1 ==> |batches[i]| == size
    decreases |items|
  {
    if items == [] then []
    else if |items| <= size then [items]
    else [items[..size]] + ChunkList(items[size..], size)
  }

  function Flatten<T>(xss: seq<seq<T>>): (xs: seq<T>) {
    if xss == [] then [] else xss[0] + Flatten(xss[1..])
  }

  lemma {:induction false} FlattenAppend<T>(xss: seq<seq<T>>, ys: seq<T>)
    ensures Flatten(xss + [ys]) == Flatten(xss) + ys
  {
    if xss != [] {
      assert (xss + [ys])[1..] == xss[1..] + [ys];
      FlattenAppend(xss[1..], ys);
    } else {
      assert Flatten([ys]) == ys + Flatten([]);
    }
  }

  /** The batches concatenate back to the input. */
  lemma {:induction false} ChunkListFlatten<T>(items: seq<T>, size: nat)
    requires size > 0
    ensures Flatten(ChunkList(items, size)) == items
    decreases |items|
  {
    if items == [] {
    } else if |items| <= size {
      assert Flatten([items]) == items + Flatten([]);
    } else {
      ChunkListFlatten(items[size..], size);
      var rest := ChunkList(items[size..], size);
      assert ChunkList(items, size) == [items[..size]] + rest;
      assert ([items[..size]] + rest)[1..] == rest;
      assert items == items[..size] + items[size..];
    }
  }

  /** There are ceil(n / size) batches. */
  lemma {:induction false} ChunkListCount<T>(items: seq<T>, size: nat)
    requires size > 0
    ensures |ChunkList(items, size)| * size >= |items|
    ensures |ChunkList(items, size)| * size < |items| + size
    decreases |items|
  {
    if |items| > size {
      ChunkListCount(items[size..], size);
      assert |ChunkList(items, size)| == 1 + |ChunkList(items[size..], size)|;
    }
  }

  /** The embedder's answer for each batch, in order, stopping at the first failure. */
  function EmbedAll(batches: seq<seq<string>>, embed: seq<string> -> Result<seq<Vector>>): Result<seq<Vector>> {
    if batches == [] then Ok([])
    else
      match EmbedAll(batches[..|batches| - 1], embed)
      case Err(m) => Err(m)
      case Ok(vs) =>
        match embed(batches[|batches| - 1])
        case Err(m) => Err(m)
        case Ok(v) => Ok(vs + v)
  }

  /** The call fails exactly when one of the batches fails. */
  lemma {:induction false} EmbedAllFails(batches: seq<seq<string>>, embed: seq<string> -> Result<seq<Vector>>)
    ensures EmbedAll(batches, embed).Err? <==> exists i :: 0 <= i < |batches| && embed(batches[i]).Err?
  {
    if batches != [] {
      var init := batches[..|batches| - 1];
      EmbedAllFails(init, embed);
      if exists i :: 0 <= i < |init| && embed(init[i]).Err? {
        var i :| 0 <= i < |init| && embed(init[i]).Err?;
        assert batches[i] == init[i];
      }
      if exists i :: 0 <= i < |batches| && embed(batches[i]).Err? {
        var i :| 0 <= i < |batches| && embed(batches[i]).Err?;
        if i < |init| {
          assert init[i] == batches[i];
        }
      }
    }
  }

  /** With an embedder that returns one vector per input, a successful call returns one
      vector per text. */
  lemma {:induction false} EmbedAllOneToOne(batches: seq<seq<string>>, embed: seq<string> -> Result<seq<Vector>>)
    requires forall b :: embed(b).Ok? ==> |embed(b).value| == |b|
    ensures EmbedAll(batches, embed).Ok? ==> |EmbedAll(batches, embed).value| == |Flatten(batches)|
  {
    if batches != [] {
      var init := batches[..|batches| - 1];
      EmbedAllOneToOne(init, embed);
      FlattenAppend(init, batches[|batches| - 1]);
      assert init + [batches[|batches| - 1]] == batches;
    }
  }

  /** generate_embeddings: embed the texts in batches of 50 and concatenate the results. */
  method GenerateEmbeddings(texts: seq<string>, embed: seq<string> -> Result<seq<Vector>>)
    returns (r: Result<seq<Vector>>)
    ensures r == EmbedAll(ChunkList(texts, EmbeddingBatchSize), embed)
    ensures r.Ok? && (forall b :: embed(b).Ok? ==> |embed(b).value| == |b|) ==> |r.value| == |texts|
  {
    var batches := ChunkList(texts, EmbeddingBatchSize);
    var embeddings: seq<Vector> := [];
    var i := 0;
    while i < |batches|
      invariant 0 <= i <= |batches|
      invariant EmbedAll(batches[..i], embed) == Ok(embeddings)
    {
      assert batches[..i + 1][..i] == batches[..i];
      var result := embed(batches[i]);
      if result.Err? {
        assert EmbedAll(batches[..i + 1], embed) == Err(result.message);
        EmbedAllStopsAtFailure(batches, i, embed);
        return Err(result.message);
      }
      embeddings := embeddings + result.value;
      i := i + 1;
    }
    assert batches[..|batches|] == batches;
    r := Ok(embeddings);
    if forall b :: embed(b).Ok? ==> |embed(b).value| == |b| {
      EmbedAllOneToOne(batches, embed);
      ChunkListFlatten(texts, EmbeddingBatchSize);
    }
  }

  /** Once a prefix has failed, the whole call fails with the same message. */
  lemma {:induction false} EmbedAllStopsAtFailure(batches: seq<seq<string>>, i: nat, embed: seq<string> -> Result<seq<Vector>>)
    requires i < |batches| && EmbedAll(batches[..i + 1], embed).Err?
    ensures EmbedAll(batches, embed) == EmbedAll(batches[..i + 1], embed)
    decreases |batches|
  {
    if i + 1 < |batches| {
      var init := batches[..|batches| - 1];
      assert init[..i + 1] == batches[..i + 1];
      EmbedAllStopsAtFailure(init, i, embed);
    } else {
      assert batches[..i + 1] == batches;
    }
  }

  // ---------------------------------------------------------------------------
  // The transcript payload and the roster context
  // ---------------------------------------------------------------------------

  /** One numbered payload line: index, relative window, absolute start time, speaker
      and stripped text. The two-decimal rendering of the window is not modelled. */
  datatype PayloadLine = PayloadLine(
    index: nat, startTime: real, endTime: real, absoluteTime: TimeText, speaker: string, text: string)

  function PayloadLineOf(index: nat, segment: Segment, meetingStart: Option<real>): PayloadLine {
    PayloadLine(index, segment.startTime, segment.endTime,
                if meetingStart.Some? then IsoFormat(meetingStart.value + segment.startTime) else Literal("n/a"),
                OrElse(segment.speaker, "Unknown"), Strip(segment.text))
  }

  /** How many items `items[:limit]` keeps under Python's slice rules. */
  function SliceEnd(n: nat, limit: int): (k: nat)
    ensures k <= n
    ensures limit >= 0 ==> k == Min(n, limit)
  {
    if limit >= 0 then Min(n, limit) else if n + limit >= 0 then n + limit else 0
  }

  /** The payload lines of the given segments, numbered from 1. */
  function PayloadLines(segments: seq<Segment>, meetingStart: Option<real>): (lines: seq<PayloadLine>)
    ensures |lines| == |segments|
  {
    if segments == [] then []
    else PayloadLines(segments[..|segments| - 1], meetingStart)
         + [PayloadLineOf(|segments|, segments[|segments| - 1], meetingStart)]
  }

  lemma {:induction false} PayloadLinesShape(segments: seq<Segment>, meetingStart: Option<real>)
    ensures forall i :: 0 <= i < |segments| ==>
      PayloadLineShape(PayloadLines(segments, meetingStart)[i], i + 1, segments[i], meetingStart)
  {
    if segments != [] {
      var init := segments[..|segments| - 1];
      PayloadLinesShape(init, meetingStart);
      PayloadLineOfShape(|segments|, segments[|segments| - 1], meetingStart);
      forall i | 0 <= i < |init|
        ensures PayloadLines(segments, meetingStart)[i] == PayloadLines(init, meetingStart)[i]
      {
      }
    }
  }

  /** build_transcript_payload: the first SEGMENT_LIMIT segments as lines numbered from 1,
      speaker defaulting to "Unknown", absolute time "n/a" without a meeting start, and
      the text stripped. */
  method BuildTranscriptPayload(meeting: Meeting, segments: seq<Segment>, segmentLimit: int)
    returns (lines: seq<PayloadLine>)
    ensures |lines| == SliceEnd(|segments|, segmentLimit)
    ensures forall i :: 0 <= i < |lines| ==> PayloadLineShape(lines[i], i + 1, segments[i], meeting.startTime)
    ensures lines == PayloadLines(segments[..SliceEnd(|segments|, segmentLimit)], meeting.startTime)
  {
    var baseTime := meeting.startTime;
    var capped := segments[..SliceEnd(|segments|, segmentLimit)];
    lines := [];
    var idx := 0;
    while idx < |capped|
      invariant 0 <= idx <= |capped|
      invariant lines == PayloadLines(capped[..idx], baseTime)
    {
      assert capped[..idx + 1][..idx] == capped[..idx];
      lines := lines + [PayloadLineOf(idx + 1, capped[idx], baseTime)];
      idx := idx + 1;
    }
    assert capped[..idx] == capped;
    PayloadLinesShape(capped, baseTime);
  }

  /** What a payload line holds: its 1-based number, the segment's window, its speaker
      or "Unknown", its stripped text, and an absolute time that is "n/a" exactly when
      the meeting has no start time. */
  predicate PayloadLineShape(line: PayloadLine, index: nat, segment: Segment, meetingStart: Option<real>) {
    && line.index == index
    && line.startTime == segment.startTime && line.endTime == segment.endTime
    && line.speaker == OrElse(segment.speaker, "Unknown")
    && line.text == Strip(segment.text)
    && (meetingStart.None? <==> line.absoluteTime == Literal("n/a"))
    && (meetingStart.Some? ==> line.absoluteTime == IsoFormat(meetingStart.value + segment.startTime))
  }

  lemma PayloadLineOfShape(index: nat, segment: Segment, meetingStart: Option<real>)
    ensures PayloadLineShape(PayloadLineOf(index, segment, meetingStart), index, segment, meetingStart)
  {
    var line := PayloadLineOf(index, segment, meetingStart);
    assert line.text == Strip(segment.text);
    assert line.speaker == OrElse(segment.speaker, "Unknown");
  }

  /** load_team_context: the stripped roster file, or None when no path is set, the file
      is missing, or it holds only whitespace. */
  function TeamContext(rosterPath: string, rosterFile: Option<string>): (context: Option<string>)
    ensures context.Some? ==> rosterPath != "" && rosterFile.Some? && context.value == Strip(rosterFile.value) && context.value != ""
    ensures context.None? ==> rosterPath == "" || rosterFile.None? || Strip(rosterFile.value) == ""
  {
    if rosterPath == "" then None
    else if rosterFile.None? then None
    else
      var data := Strip(rosterFile.value);
      if data != "" then Some(data) else None
  }

  // ---------------------------------------------------------------------------
  // Rows written by persist_insights
  // ---------------------------------------------------------------------------

  /** A row of `speaker_highlights`. */
  datatype HighlightRow = HighlightRow(
    meetingId: int, speaker: Option<string>, startTime: Option<real>, endTime: Option<real>,
    absoluteStart: Option<real>, absoluteEnd: Option<real>, text: Option<string>, labelText: Option<string>)

  /** The `meeting_metadata` row of a meeting. */
  datatype MetadataRow = MetadataRow(
    meetingId: int, llmVersion: string, goal: Option<string>, summary: Option<string>,
    sentiment: Option<string>, blockers: seq<Blocker>, deadlines: seq<Deadline>, updatedAt: int)

  /** The meeting start shifted by an offset, when both are known. */
  function AbsoluteAt(meetingStart: Option<real>, offset: Option<real>): (at: Option<real>)
    ensures at.Some? <==> meetingStart.Some? && offset.Some?
  {
    if meetingStart.Some? && offset.Some? then Some(meetingStart.value + offset.value) else None
  }

  function HighlightRowOf(meetingId: int, meetingStart: Option<real>, speaker: Option<string>, h: Highlight): HighlightRow {
    HighlightRow(meetingId, speaker, h.startSec, h.endSec,
                 AbsoluteAt(meetingStart, h.startSec), AbsoluteAt(meetingStart, h.endSec), h.text, h.labelText)
  }

  /** The rows for one speaker's highlights, in order. */
  function SpeakerRows(meetingId: int, meetingStart: Option<real>, speaker: Option<string>, hs: seq<Highlight>): (rows: seq<HighlightRow>)
    ensures |rows| == |hs|
  {
    if hs == [] then []
    else SpeakerRows(meetingId, meetingStart, speaker, hs[..|hs| - 1])
         + [HighlightRowOf(meetingId, meetingStart, speaker, hs[|hs| - 1])]
  }

  /** The highlight rows of all speaker digests, digest by digest. */
  function DigestRows(meetingId: int, meetingStart: Option<real>, digests: seq<SpeakerDigest>): seq<HighlightRow> {
    if digests == [] then []
    else
      var d := digests[|digests| - 1];
      DigestRows(meetingId, meetingStart, digests[..|digests| - 1])
      + SpeakerRows(meetingId, meetingStart, d.name, d.highlights.GetOr([]))
  }

  /** Number of highlights over all digests. */
  function HighlightCount(digests: seq<SpeakerDigest>): nat {
    if digests == [] then 0
    else HighlightCount(digests[..|digests| - 1]) + |digests[|digests| - 1].highlights.GetOr([])|
  }

  /** A highlight row fills the NOT NULL columns of speaker_highlights: start_time,
      end_time and text. */
  predicate RowFillsNotNull(r: HighlightRow) {
    r.startTime.Some? && r.endTime.Some? && r.text.Some?
  }

  /** A highlight of the reply has a start, an end and a text. */
  predicate HighlightComplete(h: Highlight) {
    h.startSec.Some? && h.endSec.Some? && h.text.Some?
  }

  /** Every highlight of every speaker digest is complete. */
  predicate HighlightsComplete(digests: seq<SpeakerDigest>) {
    forall d, h :: d in digests && h in d.highlights.GetOr([]) ==> HighlightComplete(h)
  }

  /** The inserted highlight rows all fill the NOT NULL columns exactly when every
      highlight of the reply is complete. */
  lemma {:induction false} DigestRowsFillNotNull(meetingId: int, meetingStart: Option<real>, digests: seq<SpeakerDigest>)
    ensures (forall r :: r in DigestRows(meetingId, meetingStart, digests) ==> RowFillsNotNull(r))
            <==> HighlightsComplete(digests)
  {
    if digests != [] {
      var init := digests[..|digests| - 1];
      var d := digests[|digests| - 1];
      DigestRowsFillNotNull(meetingId, meetingStart, init);
      SpeakerRowsFillNotNull(meetingId, meetingStart, d.name, d.highlights.GetOr([]));
      assert forall e :: e in digests <==> e in init || e == d;
    }
  }

  lemma {:induction false} SpeakerRowsFillNotNull(meetingId: int, meetingStart: Option<real>, speaker: Option<string>, hs: seq<Highlight>)
    ensures (forall r :: r in SpeakerRows(meetingId, meetingStart, speaker, hs) ==> RowFillsNotNull(r))
            <==> (forall h :: h in hs ==> HighlightComplete(h))
  {
    if hs != [] {
      var init := hs[..|hs| - 1];
      var last := hs[|hs| - 1];
      SpeakerRowsFillNotNull(meetingId, meetingStart, speaker, init);
      assert forall h :: h in hs <==> h in init || h == last;
      assert RowFillsNotNull(HighlightRowOf(meetingId, meetingStart, speaker, last)) <==> HighlightComplete(last);
    }
  }

  /** One highlight row per highlight, all for this meeting, absolute times exactly when
      the meeting start and the offset are known. */
  lemma {:induction false} DigestRowsShape(meetingId: int, meetingStart: Option<real>, digests: seq<SpeakerDigest>)
    ensures |DigestRows(meetingId, meetingStart, digests)| == HighlightCount(digests)
    ensures forall r :: r in DigestRows(meetingId, meetingStart, digests) ==>
      r.meetingId == meetingId
      && (r.absoluteStart.Some? <==> meetingStart.Some? && r.startTime.Some?)
      && (r.absoluteEnd.Some? <==> meetingStart.Some? && r.endTime.Some?)
  {
    if digests != [] {
      var d := digests[|digests| - 1];
      DigestRowsShape(meetingId, meetingStart, digests[..|digests| - 1]);
      SpeakerRowsShape(meetingId, meetingStart, d.name, d.highlights.GetOr([]));
    }
  }

  lemma {:induction false} SpeakerRowsShape(meetingId: int, meetingStart: Option<real>, speaker: Option<string>, hs: seq<Highlight>)
    ensures forall r :: r in SpeakerRows(meetingId, meetingStart, speaker, hs) ==>
      r.meetingId == meetingId && r.speaker == speaker
      && (r.absoluteStart.Some? <==> meetingStart.Some? && r.startTime.Some?)
      && (r.absoluteEnd.Some? <==> meetingStart.Some? && r.endTime.Some?)
  {
    if hs != [] {
      SpeakerRowsShape(meetingId, meetingStart, speaker, hs[..|hs| - 1]);
    }
  }

  /** parse_iso_datetime: None for a missing or empty text, otherwise the parser's answer
      (None for a text it rejects). */
  function ParseDue(value: Option<string>, parseIso: string -> Option<real>): (due: Option<real>)
    ensures !Truthy(value) ==> due.None?
    ensures Truthy(value) ==> due == parseIso(value.value)
  {
    if Truthy(value) then parseIso(value.value) else None
  }

  /** The action item row of one action_items entry. */
  function ItemRow(id: int, meetingId: int, item: DocActionItem, parseIso: string -> Option<real>): ActionItemRow {
    ActionItemRow(id, meetingId, item.owner, item.description.GetOr(""), ParseDue(item.dueDate, parseIso),
                  item.status, item.priority, item.reference)
  }

  function ItemRows(meetingId: int, items: seq<DocActionItem>, firstId: int, parseIso: string -> Option<real>): (rows: seq<ActionItemRow>)
    ensures |rows| == |items|
  {
    if items == [] then []
    else ItemRows(meetingId, items[..|items| - 1], firstId, parseIso)
         + [ItemRow(firstId + |items| - 1, meetingId, items[|items| - 1], parseIso)]
  }

  /** The description of a subtask's action item: "[parent] title". */
  function SubtaskDescription(parent: Option<string>, title: Option<string>): string {
    "[" + PyStr(parent) + "] " + PyStr(title)
  }

  const SubtaskStatus := "новая"

  /** The action item row of one subtask of a task_breakdown entry. */
  function SubtaskRow(id: int, meetingId: int, epic: TaskBreakdown, subtask: Subtask, parseIso: string -> Option<real>): ActionItemRow {
    ActionItemRow(id, meetingId, subtask.owner, SubtaskDescription(epic.parentTask, subtask.title),
                  ParseDue(subtask.dueDate, parseIso), Some(SubtaskStatus), epic.priority, subtask.dependencies)
  }

  function EpicRows(meetingId: int, epic: TaskBreakdown, subtasks: seq<Subtask>, firstId: int, parseIso: string -> Option<real>): (rows: seq<ActionItemRow>)
    ensures |rows| == |subtasks|
  {
    if subtasks == [] then []
    else EpicRows(meetingId, epic, subtasks[..|subtasks| - 1], firstId, parseIso)
         + [SubtaskRow(firstId + |subtasks| - 1, meetingId, epic, subtasks[|subtasks| - 1], parseIso)]
  }

  function BreakdownRows(meetingId: int, epics: seq<TaskBreakdown>, firstId: int, parseIso: string -> Option<real>): seq<ActionItemRow> {
    if epics == [] then []
    else
      var prev := BreakdownRows(meetingId, epics[..|epics| - 1], firstId, parseIso);
      var epic := epics[|epics| - 1];
      prev + EpicRows(meetingId, epic, epic.subtasks.GetOr([]), firstId + |prev|, parseIso)
  }

  /** Number of subtasks over all task_breakdown entries. */
  function SubtaskCount(epics: seq<TaskBreakdown>): nat {
    if epics == [] then 0 else SubtaskCount(epics[..|epics| - 1]) + |epics[|epics| - 1].subtasks.GetOr([])|
  }

  /** All action item rows persist_insights adds: the action items, then the subtasks. */
  function ActionItemRows(meetingId: int, doc: Insights, firstId: int, parseIso: string -> Option<real>): seq<ActionItemRow> {
    var items := ItemRows(meetingId, doc.actionItems.GetOr([]), firstId, parseIso);
    items + BreakdownRows(meetingId, doc.taskBreakdown.GetOr([]), firstId + |items|, parseIso)
  }

  lemma {:induction false} EpicRowsShape(meetingId: int, epic: TaskBreakdown, subtasks: seq<Subtask>, firstId: int, parseIso: string -> Option<real>)
    ensures forall i :: 0 <= i < |subtasks| ==>
      var r := EpicRows(meetingId, epic, subtasks, firstId, parseIso)[i];
      r.id == firstId + i && r.meetingId == meetingId
      && r.description == "[" + PyStr(epic.parentTask) + "] " + PyStr(subtasks[i].title)
      && r.status == Some(SubtaskStatus) && r.priority == epic.priority
      && r.referenceUrl == subtasks[i].dependencies
  {
    if subtasks != [] {
      EpicRowsShape(meetingId, epic, subtasks[..|subtasks| - 1], firstId, parseIso);
    }
  }

  /** The subtask rows are one per subtask, numbered consecutively, each with status
      "новая" and its parent's priority. */
  lemma {:induction false} BreakdownRowsShape(meetingId: int, epics: seq<TaskBreakdown>, firstId: int, parseIso: string -> Option<real>)
    ensures |BreakdownRows(meetingId, epics, firstId, parseIso)| == SubtaskCount(epics)
    ensures forall i :: 0 <= i < |BreakdownRows(meetingId, epics, firstId, parseIso)| ==>
      var r := BreakdownRows(meetingId, epics, firstId, parseIso)[i];
      r.id == firstId + i && r.meetingId == meetingId && r.status == Some(SubtaskStatus)
      && exists e :: e in epics && r.priority == e.priority
  {
    if epics != [] {
      var init := epics[..|epics| - 1];
      var epic := epics[|epics| - 1];
      var prev := BreakdownRows(meetingId, init, firstId, parseIso);
      BreakdownRowsShape(meetingId, init, firstId, parseIso);
      EpicRowsShape(meetingId, epic, epic.subtasks.GetOr([]), firstId + |prev|, parseIso);
      var rows := BreakdownRows(meetingId, epics, firstId, parseIso);
      forall i | 0 <= i < |rows|
        ensures rows[i].id == firstId + i && rows[i].meetingId == meetingId && rows[i].status == Some(SubtaskStatus)
          && exists e :: e in epics && rows[i].priority == e.priority
      {
        if i < |prev| {
          assert rows[i] == prev[i];
          var e :| e in init && prev[i].priority == e.priority;
          assert e in epics;
        } else {
          assert epic in epics;
        }
      }
    }
  }

  lemma {:induction false} ItemRowsShape(meetingId: int, items: seq<DocActionItem>, firstId: int, parseIso: string -> Option<real>)
    ensures forall i :: 0 <= i < |items| ==>
      var r := ItemRows(meetingId, items, firstId, parseIso)[i];
      r.id == firstId + i && r.meetingId == meetingId
      && r.description == items[i].description.GetOr("") && r.owner == items[i].owner
      && r.dueDate == ParseDue(items[i].dueDate, parseIso)
  {
    if items != [] {
      ItemRowsShape(meetingId, items[..|items| - 1], firstId, parseIso);
    }
  }

  /** persist_insights adds one action item per action_items entry plus one per subtask,
      numbered consecutively from the first free id, all for this meeting. */
  lemma ActionItemRowsShape(meetingId: int, doc: Insights, firstId: int, parseIso: string -> Option<real>)
    ensures |ActionItemRows(meetingId, doc, firstId, parseIso)|
      == |doc.actionItems.GetOr([])| + SubtaskCount(doc.taskBreakdown.GetOr([]))
    ensures forall i :: 0 <= i < |ActionItemRows(meetingId, doc, firstId, parseIso)| ==>
      ActionItemRows(meetingId, doc, firstId, parseIso)[i].id == firstId + i
      && ActionItemRows(meetingId, doc, firstId, parseIso)[i].meetingId == meetingId
  {
    var items := ItemRows(meetingId, doc.actionItems.GetOr([]), firstId, parseIso);
    ItemRowsShape(meetingId, doc.actionItems.GetOr([]), firstId, parseIso);
    BreakdownRowsShape(meetingId, doc.taskBreakdown.GetOr([]), firstId + |items|, parseIso);
  }

  /** The embedding row of one (segment, vector) pair. The columns the RAG migration
      added are not written: chunk_type takes its server default and the others stay NULL. */
  function SegmentEmbeddingRow(id: int, meetingId: int, meetingStart: Option<real>, segment: Segment, vector: Vector): EmbeddingRow {
    EmbeddingRow(id, meetingId, Some(segment.startTime), Some(segment.endTime), segment.speaker, segment.text,
                 if meetingStart.Some? then Some(meetingStart.value + segment.startTime) else None,
                 vector, Some("transcript"), None, None, None, None, None, None)
  }

  /** The rows of the first k pairs of zip(segments, vectors). */
  function SegmentEmbeddingRows(meetingId: int, meetingStart: Option<real>, segments: seq<Segment>, vectors: seq<Vector>, firstId: int, k: nat): (rows: seq<EmbeddingRow>)
    requires k <= |segments| && k <= |vectors|
    ensures |rows| == k
  {
    if k == 0 then []
    else SegmentEmbeddingRows(meetingId, meetingStart, segments, vectors, firstId, k - 1)
         + [SegmentEmbeddingRow(firstId + k - 1, meetingId, meetingStart, segments[k - 1], vectors[k - 1])]
  }

  /** Row i pairs segment i with vector i, under the next consecutive id. */
  lemma {:induction false} SegmentEmbeddingRowsShape(meetingId: int, meetingStart: Option<real>, segments: seq<Segment>, vectors: seq<Vector>, firstId: int, k: nat)
    requires k <= |segments| && k <= |vectors|
    ensures forall i :: 0 <= i < k ==>
      var r := SegmentEmbeddingRows(meetingId, meetingStart, segments, vectors, firstId, k)[i];
      r.id == firstId + i && r.meetingId == meetingId && r.text == segments[i].text
      && r.embedding == vectors[i] && r.segmentStart == Some(segments[i].startTime)
      && r.chunkType == Some("transcript") && r.platform.None? && r.language.None? && r.meetingDate.None?
  {
    if k > 0 {
      SegmentEmbeddingRowsShape(meetingId, meetingStart, segments, vectors, firstId, k - 1);
    }
  }

  /** The worker's embedding rows carry no platform, language or meeting date, so a
      retrieval filtered on any of those never returns them. */
  lemma WorkerRowsInvisibleToFilters(meetingId: int, meetingStart: Option<real>, segments: seq<Segment>, vectors: seq<Vector>, firstId: int, k: nat, f: Filters)
    requires k <= |segments| && k <= |vectors|
    requires f.platform.Some? || f.language.Some? || f.dateFrom.Some? || f.dateTo.Some?
    ensures forall r :: r in SegmentEmbeddingRows(meetingId, meetingStart, segments, vectors, firstId, k) ==> !Matches(r, f)
  {
    SegmentEmbeddingRowsShape(meetingId, meetingStart, segments, vectors, firstId, k);
  }

  // ---------------------------------------------------------------------------
  // Deleting a meeting's rows
  // ---------------------------------------------------------------------------

  /** `query(Table).filter_by(meeting_id=..).delete()` on one table: the rows of the
      other meetings, in order; `meetingOf` reads a row's meeting id. */
  function RowsOfOthers<R(==, !new)>(rows: seq<R>, meetingOf: R -> int, meetingId: int): (kept: seq<R>)
    ensures forall r :: r in kept <==> r in rows && meetingOf(r) != meetingId
    ensures |kept| <= |rows|
  {
    if rows == [] then []
    else
      var prev := RowsOfOthers(rows[..|rows| - 1], meetingOf, meetingId);
      var last := rows[|rows| - 1];
      assert forall r :: r in rows <==> r in rows[..|rows| - 1] || r == last;
      if meetingOf(last) != meetingId then prev + [last] else prev
  }

  function HighlightMeeting(r: HighlightRow): int { r.meetingId }

  function ActionItemMeeting(r: ActionItemRow): int { r.meetingId }

  function EmbeddingMeeting(r: EmbeddingRow): int { r.meetingId }

  // ---------------------------------------------------------------------------
  // The insertion loops of persist_insights
  // ---------------------------------------------------------------------------

  /** The nested loop over speaker digests and their highlights. */
  method CollectHighlightRows(meetingId: int, meetingStart: Option<real>, digests: seq<SpeakerDigest>)
    returns (rows: seq<HighlightRow>)
    ensures rows == DigestRows(meetingId, meetingStart, digests)
  {
    rows := [];
    var d := 0;
    while d < |digests|
      invariant 0 <= d <= |digests|
      invariant rows == DigestRows(meetingId, meetingStart, digests[..d])
    {
      var speaker := digests[d].name;
      var hs := digests[d].highlights.GetOr([]);
      var base := rows;
      var h := 0;
      while h < |hs|
        invariant 0 <= h <= |hs|
        invariant rows == base + SpeakerRows(meetingId, meetingStart, speaker, hs[..h])
      {
        assert hs[..h + 1][..h] == hs[..h];
        rows := rows + [HighlightRowOf(meetingId, meetingStart, speaker, hs[h])];
        h := h + 1;
      }
      assert hs[..h] == hs;
      assert digests[..d + 1][..d] == digests[..d];
      d := d + 1;
    }
    assert digests[..d] == digests;
  }

  /** The loop over action_items, numbering the new rows from firstId. */
  method CollectItemRows(meetingId: int, items: seq<DocActionItem>, firstId: int, parseIso: string -> Option<real>)
    returns (rows: seq<ActionItemRow>)
    ensures rows == ItemRows(meetingId, items, firstId, parseIso)
  {
    rows := [];
    var i := 0;
    while i < |items|
      invariant 0 <= i <= |items|
      invariant rows == ItemRows(meetingId, items[..i], firstId, parseIso)
    {
      assert items[..i + 1][..i] == items[..i];
      rows := rows + [ItemRow(firstId + i, meetingId, items[i], parseIso)];
      i := i + 1;
    }
    assert items[..i] == items;
  }

  /** The nested loop over task_breakdown entries and their subtasks. */
  method CollectBreakdownRows(meetingId: int, epics: seq<TaskBreakdown>, firstId: int, parseIso: string -> Option<real>)
    returns (rows: seq<ActionItemRow>)
    ensures rows == BreakdownRows(meetingId, epics, firstId, parseIso)
  {
    rows := [];
    var e := 0;
    while e < |epics|
      invariant 0 <= e <= |epics|
      invariant rows == BreakdownRows(meetingId, epics[..e], firstId, parseIso)
    {
      var epic := epics[e];
      var subtasks := epic.subtasks.GetOr([]);
      var epicRows := CollectEpicRows(meetingId, epic, subtasks, firstId + |rows|, parseIso);
      BreakdownRowsNext(meetingId, epics, e, firstId, parseIso);
      rows := rows + epicRows;
      e := e + 1;
    }
    assert epics[..e] == epics;
  }

  /** BreakdownRows over one more entry. */
  lemma BreakdownRowsNext(meetingId: int, epics: seq<TaskBreakdown>, e: nat, firstId: int, parseIso: string -> Option<real>)
    requires e < |epics|
    ensures var prev := BreakdownRows(meetingId, epics[..e], firstId, parseIso);
      BreakdownRows(meetingId, epics[..e + 1], firstId, parseIso)
        == prev + EpicRows(meetingId, epics[e], epics[e].subtasks.GetOr([]), firstId + |prev|, parseIso)
  {
    assert epics[..e + 1][..e] == epics[..e];
  }

  /** The inner loop over one entry's subtasks. */
  method CollectEpicRows(meetingId: int, epic: TaskBreakdown, subtasks: seq<Subtask>, firstId: int, parseIso: string -> Option<real>)
    returns (rows: seq<ActionItemRow>)
    ensures rows == EpicRows(meetingId, epic, subtasks, firstId, parseIso)
  {
    rows := [];
    var k := 0;
    while k < |subtasks|
      invariant 0 <= k <= |subtasks|
      invariant rows == EpicRows(meetingId, epic, subtasks[..k], firstId, parseIso)
    {
      assert subtasks[..k + 1][..k] == subtasks[..k];
      rows := rows + [SubtaskRow(firstId + k, meetingId, epic, subtasks[k], parseIso)];
      k := k + 1;
    }
    assert subtasks[..k] == subtasks;
  }

  /** The loop over zip(segments, embeddings). */
  method CollectEmbeddingRows(meetingId: int, meetingStart: Option<real>, segments: seq<Segment>, vectors: seq<Vector>, firstId: int)
    returns (rows: seq<EmbeddingRow>)
    ensures |rows| == Min(|segments|, |vectors|)
    ensures rows == SegmentEmbeddingRows(meetingId, meetingStart, segments, vectors, firstId, Min(|segments|, |vectors|))
  {
    var n := Min(|segments|, |vectors|);
    rows := [];
    var i := 0;
    while i < n
      invariant 0 <= i <= n
      invariant rows == SegmentEmbeddingRows(meetingId, meetingStart, segments, vectors, firstId, i)
    {
      rows := rows + [SegmentEmbeddingRow(firstId + i, meetingId, meetingStart, segments[i], vectors[i])];
      i := i + 1;
    }
  }

  // ---------------------------------------------------------------------------
  // The tables and the processing of one meeting
  // ---------------------------------------------------------------------------

  /** The worker's settings: TARGET_STATUSES, BATCH_SIZE, SEGMENT_LIMIT,
      TEAM_ROSTER_PATH and SUMMARY_MODEL. */
  datatype WorkerConfig = WorkerConfig(
    targetStatuses: seq<string>, batchSize: int, segmentLimit: int, rosterPath: string, summaryModel: string)

  /** The variable part of the summary request: the meeting's platform, native id and
      start, the roster text and the transcript payload. */
  datatype InsightsPrompt = InsightsPrompt(
    platform: string, nativeId: Option<string>, startTime: Option<real>, roster: Option<string>,
    transcript: seq<PayloadLine>, segmentLimit: int)

  /** What the worker cannot compute itself: the summary model (its reply parsed as
      JSON), the embedding model (one call per batch), ISO date parsing, and the
      contents of the roster file (None when it does not exist). */
  datatype Services = Services(
    summarize: InsightsPrompt -> Result<InsightsValue>,
    embed: seq<string> -> Result<seq<Vector>>,
    parseIso: string -> Option<real>,
    rosterFile: Option<string>)

  datatype WorkerCall = Summarize(prompt: InsightsPrompt) | EmbedTexts(texts: seq<string>)

  /** How process_meeting ended: normally (with or without transcript), by raising, or
      at its final commit, which the database refuses when a highlight row leaves a
      NOT NULL column empty. The refused commit rolls the whole transaction back, and
      the `session.commit()` in process_batch's handler then raises again, out of
      process_batch. */
  datatype MeetingOutcome = Completed | NoData | Raised(message: string) | CommitFailed

  /** The tables the worker reads and writes, with the next serial ids. */
  datatype Db = Db(
    meetings: map<int, Meeting>,
    transcripts: seq<Segment>,
    metadata: map<int, MetadataRow>,
    highlights: seq<HighlightRow>,
    actionItems: seq<ActionItemRow>,
    embeddings: seq<EmbeddingRow>,
    nextActionItemId: int,
    nextEmbeddingId: int)

  /** Meetings are keyed by their id, and action item ids increase in insertion order
      and stay below the next serial value. */
  predicate DbValid(db: Db) {
    && (forall id :: id in db.meetings ==> db.meetings[id].id == id)
    && IdsIncreasing(db.actionItems, db.nextActionItemId)
  }

  predicate IdsIncreasing(rows: seq<ActionItemRow>, next: int) {
    && (forall i, j :: 0 <= i < j < |rows| ==> rows[i].id < rows[j].id)
    && (forall i :: 0 <= i < |rows| ==> rows[i].id < next)
  }

  /** The rows of `transcriptions` whose meeting_id is the meeting's, each as often as
      the table holds it, in table order. */
  function MeetingSegments(transcripts: seq<Segment>, meetingId: int): (rows: seq<Segment>)
    ensures forall s :: multiset(rows)[s] == if s.meetingId == meetingId then multiset(transcripts)[s] else 0
  {
    if transcripts == [] then []
    else
      var init := transcripts[..|transcripts| - 1];
      var last := transcripts[|transcripts| - 1];
      assert transcripts == init + [last];
      if last.meetingId == meetingId then MeetingSegments(init, meetingId) + [last] else MeetingSegments(init, meetingId)
  }

  /** Segments in ascending start time. */
  predicate StartOrdered(segs: seq<Segment>) {
    forall i, j :: 0 <= i < j < |segs| ==> segs[i].startTime <= segs[j].startTime
  }

  /** `s` placed into an ordered list after every segment that does not start later. */
  function InsertByStart(s: Segment, sorted: seq<Segment>): (r: seq<Segment>)
    requires StartOrdered(sorted)
    ensures StartOrdered(r) && multiset(r) == multiset(sorted) + multiset{s}
  {
    if sorted == [] then [s]
    else if s.startTime < sorted[0].startTime then
      assert forall k :: 0 <= k < |sorted| ==> sorted[0].startTime <= sorted[k].startTime;
      [s] + sorted
    else
      var rest := InsertByStart(s, sorted[1..]);
      assert sorted == [sorted[0]] + sorted[1..];
      StartsNoEarlier(sorted[0].startTime, s, sorted[1..], rest);
      ConsStartOrdered(sorted[0], rest);
      [sorted[0]] + rest
  }

  /** A list holding `s` and the segments of `from` starts no earlier than they do. */
  lemma StartsNoEarlier(lo: real, s: Segment, from: seq<Segment>, rest: seq<Segment>)
    requires multiset(rest) == multiset(from) + multiset{s}
    requires lo <= s.startTime && forall k :: 0 <= k < |from| ==> lo <= from[k].startTime
    ensures forall k :: 0 <= k < |rest| ==> lo <= rest[k].startTime
  {
    forall k | 0 <= k < |rest|
      ensures lo <= rest[k].startTime
    {
      assert rest[k] in multiset(rest);
      assert rest[k] == s || rest[k] in from;
    }
  }

  lemma ConsStartOrdered(x: Segment, rest: seq<Segment>)
    requires StartOrdered(rest) && forall k :: 0 <= k < |rest| ==> x.startTime <= rest[k].startTime
    ensures StartOrdered([x] + rest)
  {
    var r := [x] + rest;
    forall i, j | 0 <= i < j < |r|
      ensures r[i].startTime <= r[j].startTime
    {
      assert r[j] == rest[j - 1];
      if i > 0 {
        assert r[i] == rest[i - 1];
      }
    }
  }

  /** The segments in ascending start time; segments that start together keep their
      relative order. */
  function SortByStart(segs: seq<Segment>): (r: seq<Segment>)
    ensures StartOrdered(r) && multiset(r) == multiset(segs)
  {
    if segs == [] then []
    else
      assert segs == segs[..|segs| - 1] + [segs[|segs| - 1]];
      InsertByStart(segs[|segs| - 1], SortByStart(segs[..|segs| - 1]))
  }

  /** The meeting's transcript segments as the query reads them, ordered by start
      time: each of the meeting's rows as often as the table holds it and no other
      row. The database's order among segments with the same start time is not
      specified; the model keeps table order there. */
  function SegmentsOf(transcripts: seq<Segment>, meetingId: int): (segs: seq<Segment>)
    ensures StartOrdered(segs)
    ensures forall s :: multiset(segs)[s] == if s.meetingId == meetingId then multiset(transcripts)[s] else 0
    ensures forall s :: s in segs <==> s in transcripts && s.meetingId == meetingId
  {
    SortByStart(MeetingSegments(transcripts, meetingId))
  }

  /** `[seg.text for seg in segments]` */
  function Texts(segs: seq<Segment>): (texts: seq<string>)
    ensures |texts| == |segs| && forall i :: 0 <= i < |segs| ==> texts[i] == segs[i].text
  {
    seq(|segs|, i requires 0 <= i < |segs| => segs[i].text)
  }

  function PromptOf(m: Meeting, segs: seq<Segment>, cfg: WorkerConfig, rosterFile: Option<string>): InsightsPrompt {
    InsightsPrompt(m.platform, m.nativeId, m.startTime, TeamContext(cfg.rosterPath, rosterFile),
                   PayloadLines(segs[..SliceEnd(|segs|, cfg.segmentLimit)], m.startTime), cfg.segmentLimit)
  }

  /** The metadata row written for an insights document: the overview fields (absent
      overview reads as {}), blockers and deadlines defaulting to []. */
  function MetadataOf(meetingId: int, doc: Insights, model: string, now: int): (row: MetadataRow)
    ensures row.blockers == doc.blockers.GetOr([]) && row.deadlines == doc.criticalDeadlines.GetOr([])
    ensures doc.overview.None? ==> row.goal.None? && row.summary.None? && row.sentiment.None?
    ensures row.meetingId == meetingId && row.llmVersion == model && row.updatedAt == now
  {
    var overview := doc.overview.GetOr(EmptyOverview);
    MetadataRow(meetingId, model, overview.goal, overview.summary, overview.sentiment,
                doc.blockers.GetOr([]), doc.criticalDeadlines.GetOr([]), now)
  }

  /** The three deletes at the start of persist_insights. */
  function DeleteRows(db: Db, meetingId: int): Db {
    db.(highlights := RowsOfOthers(db.highlights, HighlightMeeting, meetingId),
        actionItems := RowsOfOthers(db.actionItems, ActionItemMeeting, meetingId),
        embeddings := RowsOfOthers(db.embeddings, EmbeddingMeeting, meetingId))
  }

  /** The tables after persist_insights for a dict reply: the meeting's rows replaced by
      those derived from the document and the (segment, vector) pairs. */
  function Persisted(db: Db, m: Meeting, doc: Insights, segs: seq<Segment>, vectors: seq<Vector>,
                     model: string, now: int, parseIso: string -> Option<real>): Db
  {
    Inserted(DeleteRows(db, m.id), m, doc, segs, vectors, model, now, parseIso)
  }

  /** The inserts of persist_insights, numbered from the next serial ids. */
  function Inserted(d: Db, m: Meeting, doc: Insights, segs: seq<Segment>, vectors: seq<Vector>,
                    model: string, now: int, parseIso: string -> Option<real>): Db
  {
    var items := ActionItemRows(m.id, doc, d.nextActionItemId, parseIso);
    var n := Min(|segs|, |vectors|);
    d.(metadata := d.metadata[m.id := MetadataOf(m.id, doc, model, now)],
       highlights := d.highlights + DigestRows(m.id, m.startTime, doc.speakerDigests.GetOr([])),
       actionItems := d.actionItems + items,
       nextActionItemId := d.nextActionItemId + |items|,
       embeddings := d.embeddings + SegmentEmbeddingRows(m.id, m.startTime, segs, vectors, d.nextEmbeddingId, n),
       nextEmbeddingId := d.nextEmbeddingId + n)
  }

  function NoDataMeeting(m: Meeting, now: int): Meeting {
    m.(summaryState := "no_data", processedAt := Some(now), updatedAt := now)
  }

  /** The meeting after a successful run: the document under insights_ru, the roster
      snapshot replaced only when there is roster text, state "completed". */
  function CompletedMeeting(m: Meeting, doc: Insights, roster: Option<string>, now: int): Meeting {
    var data := m.data.(insightsRu := Some(Dict(doc)),
                        teamRosterSnapshot := if roster.Some? then roster else m.data.teamRosterSnapshot);
    m.(data := data, summaryState := "completed", processedAt := Some(now), updatedAt := now)
  }

  /** As process_meeting's write of insights_ru is coded, a meeting whose data was not
      empty before the run (a roster snapshot, the keys of a Jira sync or an earlier
      document) keeps its old data: the new document and roster snapshot are not
      stored, while summary_state still says "completed". */
  lemma CompletedAsWrittenKeepsOldData(m: Meeting, doc: Insights, roster: Option<string>, now: int)
    requires !m.data.IsEmpty() && m.data.insightsRu != Some(Dict(doc))
    ensures var c := CompletedMeeting(m, doc, roster, now);
      && StoredDataAsWritten(m.data, c.data) == m.data
      && StoredDataAsWritten(m.data, c.data).insightsRu != Some(Dict(doc))
      && c.summaryState == "completed"
  {
  }

  /** The summary states a processed meeting ends in. */
  const FinalStates := {"completed", "no_data", "error"}

  function ErrorMeeting(m: Meeting, now: int): Meeting {
    m.(summaryState := "error", updatedAt := now)
  }

  datatype MeetingRun = MeetingRun(db: Db, outcome: MeetingOutcome, calls: seq<WorkerCall>)

  /** process_meeting on the tables: what it writes, how it ends and which services it
      calls. A raised run leaves what was flushed before the failure. */
  function ProcessMeetingRun(db: Db, meetingId: int, cfg: WorkerConfig, svc: Services, now: int): MeetingRun
    requires meetingId in db.meetings
  {
    var m := db.meetings[meetingId];
    var segs := SegmentsOf(db.transcripts, meetingId);
    if segs == [] then
      MeetingRun(db.(meetings := db.meetings[meetingId := NoDataMeeting(m, now)]), NoData, [])
    else
      var prompt := PromptOf(m, segs, cfg, svc.rosterFile);
      Replied(db, m, segs, prompt, svc.summarize(prompt),
              EmbedAll(ChunkList(Texts(segs), EmbeddingBatchSize), svc.embed), cfg.summaryModel, now, svc.parseIso)
  }

  /** The rest of process_meeting once the summary model has replied and the texts have
      been sent for embedding (the latter only when the reply arrived). */
  function Replied(db: Db, m: Meeting, segs: seq<Segment>, prompt: InsightsPrompt, reply: Result<InsightsValue>,
                   embedded: Result<seq<Vector>>, model: string, now: int, parseIso: string -> Option<real>): MeetingRun
  {
    match reply
    case Err(e) => MeetingRun(db, Raised(e), [Summarize(prompt)])
    case Ok(value) =>
      var calls := [Summarize(prompt), EmbedTexts(Texts(segs))];
      match embedded
      case Err(e) => MeetingRun(db, Raised(e), calls)
      case Ok(vectors) =>
        match value
        case NonDict(typeName, _) => MeetingRun(DeleteRows(db, m.id), Raised(NoGet(typeName)), calls)
        case Dict(doc) =>
          if HighlightsComplete(doc.speakerDigests.GetOr([])) then
            MeetingRun(Finished(db, m, doc, segs, vectors, prompt.roster, model, now, parseIso), Completed, calls)
          else MeetingRun(db, CommitFailed, calls)
  }

  /** The tables after a successful run: the rows persisted and the meeting completed. */
  function Finished(db: Db, m: Meeting, doc: Insights, segs: seq<Segment>, vectors: seq<Vector>,
                    roster: Option<string>, model: string, now: int, parseIso: string -> Option<real>): Db
  {
    var d := Persisted(db, m, doc, segs, vectors, model, now, parseIso);
    d.(meetings := d.meetings[m.id := CompletedMeeting(m, doc, roster, now)])
  }

  /** A meeting without transcript segments ends "no_data" with no model or embedding
      call and no row written; any other meeting is sent to the summary model first. */
  lemma ProcessMeetingNoData(db: Db, meetingId: int, cfg: WorkerConfig, svc: Services, now: int)
    requires meetingId in db.meetings
    ensures var run := ProcessMeetingRun(db, meetingId, cfg, svc, now);
      (run.outcome == NoData <==> SegmentsOf(db.transcripts, meetingId) == [])
      && (run.outcome == NoData ==>
            run.calls == [] && run.db.meetings[meetingId].summaryState == "no_data"
            && run.db.meetings[meetingId].processedAt == Some(now)
            && run.db == db.(meetings := run.db.meetings))
      && (run.outcome != NoData ==> |run.calls| >= 1 && run.calls[0].Summarize?)
  {
  }

  /** A run completes exactly when the transcript is non-empty, the summary model
      returns a JSON object whose highlights all have a start, an end and a text, and
      every embedding batch succeeds. */
  lemma ProcessMeetingCompletes(db: Db, meetingId: int, cfg: WorkerConfig, svc: Services, now: int)
    requires meetingId in db.meetings
    ensures var segs := SegmentsOf(db.transcripts, meetingId);
      var prompt := PromptOf(db.meetings[meetingId], segs, cfg, svc.rosterFile);
      ProcessMeetingRun(db, meetingId, cfg, svc, now).outcome == Completed <==>
        segs != [] && svc.summarize(prompt).Ok? && svc.summarize(prompt).value.Dict?
        && HighlightsComplete(svc.summarize(prompt).value.doc.speakerDigests.GetOr([]))
        && EmbedAll(ChunkList(Texts(segs), EmbeddingBatchSize), svc.embed).Ok?
  {
  }

  /** A JSON object with an incomplete highlight gets as far as the commit, which fails:
      the transaction is rolled back, the deletes with it, and the tables are as the
      claim left them. */
  lemma ProcessMeetingCommitFails(db: Db, meetingId: int, cfg: WorkerConfig, svc: Services, now: int)
    requires meetingId in db.meetings
    ensures var segs := SegmentsOf(db.transcripts, meetingId);
      var prompt := PromptOf(db.meetings[meetingId], segs, cfg, svc.rosterFile);
      var run := ProcessMeetingRun(db, meetingId, cfg, svc, now);
      && (run.outcome == CommitFailed <==>
            segs != [] && svc.summarize(prompt).Ok? && svc.summarize(prompt).value.Dict?
            && !HighlightsComplete(svc.summarize(prompt).value.doc.speakerDigests.GetOr([]))
            && EmbedAll(ChunkList(Texts(segs), EmbeddingBatchSize), svc.embed).Ok?)
      && (run.outcome == CommitFailed ==> run.db == db && |run.calls| == 2)
  {
  }

  /** After a completed run the meeting holds the document under insights_ru, and its
      roster snapshot changes only when the roster file has text; the Jira keys of its
      data are kept. */
  lemma ProcessMeetingCompletedState(db: Db, meetingId: int, cfg: WorkerConfig, svc: Services, now: int)
    requires meetingId in db.meetings && DbValid(db)
    requires ProcessMeetingRun(db, meetingId, cfg, svc, now).outcome == Completed
    ensures var m := db.meetings[meetingId];
      var after := ProcessMeetingRun(db, meetingId, cfg, svc, now).db.meetings[meetingId];
      var roster := TeamContext(cfg.rosterPath, svc.rosterFile);
      && after.summaryState == "completed" && after.processedAt == Some(now)
      && after.data.insightsRu == Some(svc.summarize(PromptOf(m, SegmentsOf(db.transcripts, meetingId), cfg, svc.rosterFile)).value)
      && (roster.Some? ==> after.data.teamRosterSnapshot == roster)
      && (roster.None? ==> after.data.teamRosterSnapshot == m.data.teamRosterSnapshot)
      && after.data.jiraSyncState == m.data.jiraSyncState && after.data.jiraIssues == m.data.jiraIssues
  {
    var m := db.meetings[meetingId];
    var segs := SegmentsOf(db.transcripts, meetingId);
    var prompt := PromptOf(m, segs, cfg, svc.rosterFile);
    var reply := svc.summarize(prompt);
    var embedded := EmbedAll(ChunkList(Texts(segs), EmbeddingBatchSize), svc.embed);
    assert ProcessMeetingRun(db, meetingId, cfg, svc, now).db
      == Finished(db, m, reply.value.doc, segs, embedded.value, prompt.roster, cfg.summaryModel, now, svc.parseIso);
  }

  /** A run that raises changes no meeting row; only a reply that is not a JSON object
      gets as far as the deletes. */
  lemma ProcessMeetingRaised(db: Db, meetingId: int, cfg: WorkerConfig, svc: Services, now: int)
    requires meetingId in db.meetings && DbValid(db)
    ensures var run := ProcessMeetingRun(db, meetingId, cfg, svc, now);
      run.outcome.Raised? ==>
        run.db.meetings == db.meetings
        && (run.db == db || run.db == DeleteRows(db, meetingId))
  {
    var m := db.meetings[meetingId];
    var segs := SegmentsOf(db.transcripts, meetingId);
    if segs != [] {
      var prompt := PromptOf(m, segs, cfg, svc.rosterFile);
      RepliedRaised(db, m, segs, prompt, svc.summarize(prompt),
                    EmbedAll(ChunkList(Texts(segs), EmbeddingBatchSize), svc.embed), cfg.summaryModel, now, svc.parseIso);
    }
  }

  lemma RepliedRaised(db: Db, m: Meeting, segs: seq<Segment>, prompt: InsightsPrompt, reply: Result<InsightsValue>,
                      embedded: Result<seq<Vector>>, model: string, now: int, parseIso: string -> Option<real>)
    ensures var run := Replied(db, m, segs, prompt, reply, embedded, model, now, parseIso);
      run.outcome.Raised? ==> run.db == db || (run.db == DeleteRows(db, m.id) && run.db.meetings == db.meetings)
  {
  }

  /** Meetings other than meetingId and the rows of other meetings are the same in
      both states (rows may move, none is added or lost). */
  predicate OthersKept(before: Db, after: Db, meetingId: int) {
    && after.meetings.Keys == before.meetings.Keys
    && after.transcripts == before.transcripts
    && (forall id :: id in before.meetings && id != meetingId ==> after.meetings[id] == before.meetings[id])
    && (forall r :: r in before.highlights && r.meetingId != meetingId ==> r in after.highlights)
    && (forall r :: r in before.actionItems && r.meetingId != meetingId ==> r in after.actionItems)
    && (forall r :: r in before.embeddings && r.meetingId != meetingId ==> r in after.embeddings)
    && (forall r :: r in after.actionItems && r.meetingId != meetingId ==> r in before.actionItems)
    && (forall r :: r in after.embeddings && r.meetingId != meetingId ==> r in before.embeddings)
  }

  /** Rows of other meetings survive persist_insights, and every row it leaves for
      another meeting was already there. */
  lemma FinishedKeepsOthers(db: Db, m: Meeting, doc: Insights, segs: seq<Segment>, vectors: seq<Vector>,
                            roster: Option<string>, model: string, now: int, parseIso: string -> Option<real>)
    requires m.id in db.meetings
    ensures OthersKept(db, Finished(db, m, doc, segs, vectors, roster, model, now, parseIso), m.id)
  {
    var d := DeleteRows(db, m.id);
    var items := ActionItemRows(m.id, doc, d.nextActionItemId, parseIso);
    var n := Min(|segs|, |vectors|);
    var rows := SegmentEmbeddingRows(m.id, m.startTime, segs, vectors, d.nextEmbeddingId, n);
    ActionItemRowsShape(m.id, doc, d.nextActionItemId, parseIso);
    SegmentEmbeddingRowsShape(m.id, m.startTime, segs, vectors, d.nextEmbeddingId, n);
    assert forall r :: r in items ==> r.meetingId == m.id;
    assert forall r :: r in rows ==> r.meetingId == m.id;
  }

  /** Rows and meetings other than the processed one are untouched. */
  lemma ProcessMeetingOthersUntouched(db: Db, meetingId: int, cfg: WorkerConfig, svc: Services, now: int)
    requires meetingId in db.meetings && DbValid(db)
    ensures OthersKept(db, ProcessMeetingRun(db, meetingId, cfg, svc, now).db, meetingId)
  {
    var run := ProcessMeetingRun(db, meetingId, cfg, svc, now);
    var m := db.meetings[meetingId];
    var segs := SegmentsOf(db.transcripts, meetingId);
    if segs != [] {
      var prompt := PromptOf(m, segs, cfg, svc.rosterFile);
      var reply := svc.summarize(prompt);
      var embedded := EmbedAll(ChunkList(Texts(segs), EmbeddingBatchSize), svc.embed);
      if reply.Ok? && embedded.Ok? {
        if reply.value.Dict? && HighlightsComplete(reply.value.doc.speakerDigests.GetOr([])) {
          FinishedKeepsOthers(db, m, reply.value.doc, segs, embedded.value, prompt.roster, cfg.summaryModel, now, svc.parseIso);
        } else if reply.value.NonDict? {
          assert run.db == DeleteRows(db, meetingId);
        }
      }
    }
  }

  /** process_meeting returned (rather than raised). */
  predicate Normal(outcome: MeetingOutcome) {
    outcome == Completed || outcome == NoData
  }

  /** Some call returned without raising. */
  predicate AnyNormal(outcomes: seq<MeetingOutcome>) {
    exists i :: 0 <= i < |outcomes| && Normal(outcomes[i])
  }

  lemma AnyNormalAppend(outcomes: seq<MeetingOutcome>, outcome: MeetingOutcome)
    ensures AnyNormal(outcomes + [outcome]) <==> AnyNormal(outcomes) || Normal(outcome)
  {
    var all := outcomes + [outcome];
    if AnyNormal(outcomes) {
      var i :| 0 <= i < |outcomes| && Normal(outcomes[i]);
      assert all[i] == outcomes[i];
    }
    if Normal(outcome) {
      assert all[|outcomes|] == outcome;
    }
    if AnyNormal(all) {
      var i :| 0 <= i < |all| && Normal(all[i]);
      if i < |outcomes| {
        assert all[i] == outcomes[i];
      }
    }
  }

  /** What one process_meeting call does to the meetings table: only the processed
      meeting changes, to "no_data" or "completed" when the call returns normally, and
      not at all when it raises or its commit fails. */
  predicate MeetingStep(before: Db, after: Db, meetingId: int, outcome: MeetingOutcome) {
    && after.meetings.Keys == before.meetings.Keys
    && (forall id :: id in before.meetings && id != meetingId ==> after.meetings[id] == before.meetings[id])
    && (outcome == NoData && meetingId in after.meetings ==> after.meetings[meetingId].summaryState == "no_data")
    && (outcome == Completed && meetingId in after.meetings ==> after.meetings[meetingId].summaryState == "completed")
    && (outcome.Raised? || outcome == CommitFailed ==> after.meetings == before.meetings)
  }

  lemma ProcessMeetingStep(db: Db, meetingId: int, cfg: WorkerConfig, svc: Services, now: int)
    requires meetingId in db.meetings && DbValid(db)
    ensures var run := ProcessMeetingRun(db, meetingId, cfg, svc, now);
      MeetingStep(db, run.db, meetingId, run.outcome)
  {
    var run := ProcessMeetingRun(db, meetingId, cfg, svc, now);
    ProcessMeetingNoData(db, meetingId, cfg, svc, now);
    ProcessMeetingRaised(db, meetingId, cfg, svc, now);
    ProcessMeetingCommitFails(db, meetingId, cfg, svc, now);
    ProcessMeetingOthersUntouched(db, meetingId, cfg, svc, now);
    if run.outcome == Completed {
      ProcessMeetingCompletedState(db, meetingId, cfg, svc, now);
    }
  }

  /** Filtering out one meeting's action items keeps the ids increasing. */
  lemma {:induction false} ActionItemsOfOthersIncreasing(rows: seq<ActionItemRow>, meetingId: int, next: int)
    requires IdsIncreasing(rows, next)
    ensures IdsIncreasing(RowsOfOthers(rows, ActionItemMeeting, meetingId), next)
  {
    if rows != [] {
      var init := rows[..|rows| - 1];
      ActionItemsOfOthersIncreasing(init, meetingId, next);
      var prev := RowsOfOthers(init, ActionItemMeeting, meetingId);
      var last := rows[|rows| - 1];
      if last.meetingId != meetingId {
        forall i | 0 <= i < |prev| ensures prev[i].id < last.id {
          assert prev[i] in init;
          var k :| 0 <= k < |init| && init[k] == prev[i];
          assert rows[k] == prev[i];
        }
      }
    }
  }

  /** process_meeting keeps the tables consistent: meetings stay keyed by id and newly
      numbered action items follow every earlier one. */
  lemma ProcessMeetingKeepsValid(db: Db, meetingId: int, cfg: WorkerConfig, svc: Services, now: int)
    requires meetingId in db.meetings && DbValid(db)
    ensures DbValid(ProcessMeetingRun(db, meetingId, cfg, svc, now).db)
  {
    var m := db.meetings[meetingId];
    var segs := SegmentsOf(db.transcripts, meetingId);
    if segs != [] {
      var prompt := PromptOf(m, segs, cfg, svc.rosterFile);
      RepliedKeepsValid(db, m, segs, prompt, svc.summarize(prompt),
                        EmbedAll(ChunkList(Texts(segs), EmbeddingBatchSize), svc.embed), cfg.summaryModel, now, svc.parseIso);
    }
  }

  lemma RepliedKeepsValid(db: Db, m: Meeting, segs: seq<Segment>, prompt: InsightsPrompt, reply: Result<InsightsValue>,
                          embedded: Result<seq<Vector>>, model: string, now: int, parseIso: string -> Option<real>)
    requires DbValid(db) && m.id in db.meetings && db.meetings[m.id] == m
    ensures DbValid(Replied(db, m, segs, prompt, reply, embedded, model, now, parseIso).db)
  {
    if reply.Ok? && embedded.Ok? {
      PersistedKeepsValid(db, m, if reply.value.Dict? then reply.value.doc else Insights(None, None, None, None, None, None, None),
                          segs, embedded.value, model, now, parseIso);
    }
  }

  lemma AppendIncreasing(rows: seq<ActionItemRow>, added: seq<ActionItemRow>, next: int)
    requires IdsIncreasing(rows, next)
    requires forall i :: 0 <= i < |added| ==> added[i].id == next + i
    ensures IdsIncreasing(rows + added, next + |added|)
  {
    var all := rows + added;
    forall i, j | 0 <= i < j < |all| ensures all[i].id < all[j].id {
      if j >= |rows| {
        assert all[j] == added[j - |rows|];
        if i < |rows| {
          assert all[i] == rows[i];
        } else {
          assert all[i] == added[i - |rows|];
        }
      }
    }
  }

  /** The deletes and the persisted rows keep the tables consistent. */
  lemma PersistedKeepsValid(db: Db, m: Meeting, doc: Insights, segs: seq<Segment>, vectors: seq<Vector>,
                            model: string, now: int, parseIso: string -> Option<real>)
    requires DbValid(db)
    ensures DbValid(DeleteRows(db, m.id))
    ensures DbValid(Persisted(db, m, doc, segs, vectors, model, now, parseIso))
  {
    ActionItemsOfOthersIncreasing(db.actionItems, m.id, db.nextActionItemId);
    var d := DeleteRows(db, m.id);
    ActionItemRowsShape(m.id, doc, d.nextActionItemId, parseIso);
    AppendIncreasing(d.actionItems, ActionItemRows(m.id, doc, d.nextActionItemId, parseIso), d.nextActionItemId);
  }

  // ---------------------------------------------------------------------------
  // Claiming meetings
  // ---------------------------------------------------------------------------

  /** A meeting select_next_meeting may claim: its status is a target status and its
      summary_state is pending or error (a NULL state never matches in SQL). */
  predicate Claimable(m: Meeting, statuses: seq<string>) {
    m.status in statuses && (m.summaryState == "pending" || m.summaryState == "error")
  }

  predicate HasClaimable(meetings: map<int, Meeting>, statuses: seq<string>) {
    exists id :: id in meetings && Claimable(meetings[id], statuses)
  }

  /** id is a claimable meeting with the oldest updated_at (ties are not broken). */
  predicate IsOldestClaimable(meetings: map<int, Meeting>, statuses: seq<string>, id: int) {
    && id in meetings && Claimable(meetings[id], statuses)
    && forall other :: other in meetings && Claimable(meetings[other], statuses) ==>
         meetings[id].updatedAt <= meetings[other].updatedAt
  }

  /** The claim writes summary_state "processing"; the commit bumps updated_at. */
  function ClaimedMeeting(m: Meeting, now: int): Meeting {
    m.(summaryState := "processing", updatedAt := now)
  }

  lemma {:induction false} OldestAmong(meetings: map<int, Meeting>, ids: set<int>, w: int)
    requires w in ids && ids <= meetings.Keys
    ensures exists id :: id in ids && forall other :: other in ids ==> meetings[id].updatedAt <= meetings[other].updatedAt
    decreases |ids|
  {
    if exists y :: y in ids && meetings[y].updatedAt < meetings[w].updatedAt {
      var y :| y in ids && meetings[y].updatedAt < meetings[w].updatedAt;
      var rest := ids - {w};
      OldestAmong(meetings, rest, y);
      var z :| z in rest && forall other :: other in rest ==> meetings[z].updatedAt <= meetings[other].updatedAt;
      assert forall other :: other in ids ==> other == w || other in rest;
    } else {
      assert forall other :: other in ids ==> meetings[w].updatedAt <= meetings[other].updatedAt;
    }
  }

  /** Whenever some meeting is claimable, an oldest one exists. */
  lemma OldestClaimableExists(meetings: map<int, Meeting>, statuses: seq<string>)
    requires HasClaimable(meetings, statuses)
    ensures exists id :: IsOldestClaimable(meetings, statuses, id)
  {
    var ids := set id | id in meetings && Claimable(meetings[id], statuses);
    var some :| some in meetings && Claimable(meetings[some], statuses);
    assert some in ids;
    OldestAmong(meetings, ids, some);
    var id :| id in ids && forall other :: other in ids ==> meetings[id].updatedAt <= meetings[other].updatedAt;
    assert IsOldestClaimable(meetings, statuses, id);
  }

  // ---------------------------------------------------------------------------
  // The worker's session over the tables
  // ---------------------------------------------------------------------------

  class InsightsStore {
    var meetings: map<int, Meeting>
    var transcripts: seq<Segment>
    var metadata: map<int, MetadataRow>
    var highlights: seq<HighlightRow>
    var actionItems: seq<ActionItemRow>
    var embeddings: seq<EmbeddingRow>
    var nextActionItemId: int
    var nextEmbeddingId: int

    function State(): Db
      reads this
    {
      Db(meetings, transcripts, metadata, highlights, actionItems, embeddings, nextActionItemId, nextEmbeddingId)
    }

    ghost predicate Valid()
      reads this
    {
      DbValid(State())
    }

    constructor(meetings: map<int, Meeting>, transcripts: seq<Segment>)
      requires forall id :: id in meetings ==> meetings[id].id == id
      ensures Valid()
      ensures State() == Db(meetings, transcripts, map[], [], [], [], 1, 1)
    {
      this.meetings := meetings;
      this.transcripts := transcripts;
      metadata := map[];
      highlights := [];
      actionItems := [];
      embeddings := [];
      nextActionItemId := 1;
      nextEmbeddingId := 1;
    }

    /** select_next_meeting: claim an oldest claimable meeting, or none when there is
        none; nothing but the claimed meeting changes. */
    method SelectNextMeeting(statuses: seq<string>, now: int) returns (claimed: Option<int>)
      requires Valid()
      modifies this
      ensures Valid()
      ensures claimed.None? <==> !HasClaimable(old(meetings), statuses)
      ensures claimed.Some? ==>
        && IsOldestClaimable(old(meetings), statuses, claimed.value)
        && meetings == old(meetings)[claimed.value := ClaimedMeeting(old(meetings)[claimed.value], now)]
      ensures claimed.None? ==> meetings == old(meetings)
      ensures State() == old(State()).(meetings := meetings)
    {
      if !HasClaimable(meetings, statuses) {
        return None;
      }
      OldestClaimableExists(meetings, statuses);
      var id :| IsOldestClaimable(meetings, statuses, id);
      meetings := meetings[id := ClaimedMeeting(meetings[id], now)];
      claimed := Some(id);
    }

    /** persist_insights: delete the meeting's highlights, action items and embeddings,
        then write the metadata and the rows derived from the reply. A reply that is not
        a JSON object fails right after the deletes. */
    method PersistInsights(m: Meeting, insights: InsightsValue, segs: seq<Segment>, vectors: seq<Vector>,
                           model: string, now: int, parseIso: string -> Option<real>)
      returns (ok: bool)
      requires Valid()
      modifies this
      ensures Valid()
      ensures ok <==> insights.Dict?
      ensures ok ==> State() == Persisted(old(State()), m, insights.doc, segs, vectors, model, now, parseIso)
      ensures !ok ==> State() == DeleteRows(old(State()), m.id)
    {
      PersistedKeepsValid(State(), m, if insights.Dict? then insights.doc else Insights(None, None, None, None, None, None, None),
                          segs, vectors, model, now, parseIso);
      DeleteMeetingRows(m.id);
      if insights.NonDict? {
        return false;
      }
      InsertRows(m, insights.doc, segs, vectors, model, now, parseIso);
      ok := true;
    }

    /** The three deletes. */
    method DeleteMeetingRows(meetingId: int)
      modifies this
      ensures State() == DeleteRows(old(State()), meetingId)
    {
      highlights := RowsOfOthers(highlights, HighlightMeeting, meetingId);
      actionItems := RowsOfOthers(actionItems, ActionItemMeeting, meetingId);
      embeddings := RowsOfOthers(embeddings, EmbeddingMeeting, meetingId);
    }

    /** The metadata upsert and the three insertion loops. */
    method InsertRows(m: Meeting, doc: Insights, segs: seq<Segment>, vectors: seq<Vector>,
                      model: string, now: int, parseIso: string -> Option<real>)
      modifies this
      ensures State() == Inserted(old(State()), m, doc, segs, vectors, model, now, parseIso)
    {
      metadata := metadata[m.id := MetadataOf(m.id, doc, model, now)];
      var highlightRows := CollectHighlightRows(m.id, m.startTime, doc.speakerDigests.GetOr([]));
      highlights := highlights + highlightRows;
      InsertActionItems(m.id, doc, parseIso);
      InsertEmbeddings(m, segs, vectors);
    }

    /** The loops over action_items and task_breakdown, numbered from the next serial id. */
    method InsertActionItems(meetingId: int, doc: Insights, parseIso: string -> Option<real>)
      modifies this
      ensures var added := ActionItemRows(meetingId, doc, old(nextActionItemId), parseIso);
        State() == old(State()).(actionItems := old(actionItems) + added,
                                 nextActionItemId := old(nextActionItemId) + |added|)
    {
      var itemRows := CollectItemRows(meetingId, doc.actionItems.GetOr([]), nextActionItemId, parseIso);
      var subtaskRows := CollectBreakdownRows(meetingId, doc.taskBreakdown.GetOr([]), nextActionItemId + |itemRows|, parseIso);
      var added := itemRows + subtaskRows;
      assert added == ActionItemRows(meetingId, doc, nextActionItemId, parseIso);
      actionItems := actionItems + added;
      nextActionItemId := nextActionItemId + |added|;
    }

    /** The loop over the (segment, vector) pairs, numbered from the next serial id. */
    method InsertEmbeddings(m: Meeting, segs: seq<Segment>, vectors: seq<Vector>)
      modifies this
      ensures var n := Min(|segs|, |vectors|);
        State() == old(State()).(embeddings := old(embeddings) + SegmentEmbeddingRows(m.id, m.startTime, segs, vectors, old(nextEmbeddingId), n),
                                 nextEmbeddingId := old(nextEmbeddingId) + n)
    {
      var embeddingRows := CollectEmbeddingRows(m.id, m.startTime, segs, vectors, nextEmbeddingId);
      embeddings := embeddings + embeddingRows;
      nextEmbeddingId := nextEmbeddingId + |embeddingRows|;
    }

    /** process_meeting: read the transcript, mark a meeting without one "no_data";
        otherwise ask the summary model, embed the texts, persist the rows and mark the
        meeting "completed". A failing step raises and leaves what it had flushed. */
    method ProcessMeeting(meetingId: int, cfg: WorkerConfig, svc: Services, now: int)
      returns (outcome: MeetingOutcome, calls: seq<WorkerCall>)
      requires Valid() && meetingId in meetings
      modifies this
      ensures Valid()
      ensures var run := ProcessMeetingRun(old(State()), meetingId, cfg, svc, now);
        State() == run.db && outcome == run.outcome && calls == run.calls
      ensures MeetingStep(old(State()), State(), meetingId, outcome)
      ensures outcome == CommitFailed ==> State() == old(State())
    {
      ghost var before := State();
      ProcessMeetingStep(before, meetingId, cfg, svc, now);
      var m := meetings[meetingId];
      var segs := SegmentsOf(transcripts, meetingId);
      if segs == [] {
        meetings := meetings[meetingId := NoDataMeeting(m, now)];
        return NoData, [];
      }
      var payload := BuildTranscriptPayload(m, segs, cfg.segmentLimit);
      var roster := TeamContext(cfg.rosterPath, svc.rosterFile);
      var prompt := InsightsPrompt(m.platform, m.nativeId, m.startTime, roster, payload, cfg.segmentLimit);
      assert prompt == PromptOf(m, segs, cfg, svc.rosterFile);
      outcome, calls := SummarizeAndPersist(m, segs, prompt, cfg.summaryModel, svc, now);
    }

    /** The rest of process_meeting once the prompt is built: the summary call, the
        embeddings, persist_insights and the mark "completed". */
    method SummarizeAndPersist(m: Meeting, segs: seq<Segment>, prompt: InsightsPrompt, model: string, svc: Services, now: int)
      returns (outcome: MeetingOutcome, calls: seq<WorkerCall>)
      requires Valid() && m.id in meetings && meetings[m.id] == m
      modifies this
      ensures Valid()
      ensures var run := Replied(old(State()), m, segs, prompt, svc.summarize(prompt),
                                 EmbedAll(ChunkList(Texts(segs), EmbeddingBatchSize), svc.embed), model, now, svc.parseIso);
        State() == run.db && outcome == run.outcome && calls == run.calls
    {
      var before := State();
      calls := [Summarize(prompt)];
      var reply := svc.summarize(prompt);
      if reply.Err? {
        return Raised(reply.message), calls;
      }
      var texts := Texts(segs);
      calls := calls + [EmbedTexts(texts)];
      var embedded := GenerateEmbeddings(texts, svc.embed);
      if embedded.Err? {
        return Raised(embedded.message), calls;
      }
      var ok := PersistInsights(m, reply.value, segs, embedded.value, model, now, svc.parseIso);
      if !ok {
        return Raised(NoGet(reply.value.typeName)), calls;
      }
      meetings := meetings[m.id := CompletedMeeting(m, reply.value.doc, prompt.roster, now)];
      assert State() == Finished(before, m, reply.value.doc, segs, embedded.value, prompt.roster, model, now, svc.parseIso);
      var digests := reply.value.doc.speakerDigests.GetOr([]);
      DigestRowsFillNotNull(m.id, m.startTime, digests);
      var committed := Commit(before, DigestRows(m.id, m.startTime, digests));
      outcome := if committed then Completed else CommitFailed;
    }

    /** session.commit(): the database refuses it when a pending highlight row leaves a
        NOT NULL column empty, and the transaction is then rolled back to `saved`, the
        tables as of the previous commit. */
    method Commit(saved: Db, pending: seq<HighlightRow>) returns (committed: bool)
      requires DbValid(saved)
      modifies this
      ensures committed <==> forall r :: r in pending ==> RowFillsNotNull(r)
      ensures committed ==> State() == old(State())
      ensures !committed ==> State() == saved
    {
      committed := forall r :: r in pending ==> RowFillsNotNull(r);
      if !committed {
        meetings, transcripts, metadata := saved.meetings, saved.transcripts, saved.metadata;
        highlights, actionItems, embeddings := saved.highlights, saved.actionItems, saved.embeddings;
        nextActionItemId, nextEmbeddingId := saved.nextActionItemId, saved.nextEmbeddingId;
      }
    }

    /** process_batch: up to BATCH_SIZE times, claim the next meeting and process it;
        stop at the first empty claim; a meeting whose processing raised is marked
        "error", which makes it claimable again. A failed commit ends the batch by an
        exception (`crashed`), leaving its meeting "processing", where no later claim
        picks it up. */
    method ProcessBatch(cfg: WorkerConfig, svc: Services, now: int)
      returns (processedAny: bool, crashed: bool, claims: seq<int>, outcomes: seq<MeetingOutcome>)
      requires Valid()
      modifies this
      ensures Valid()
      ensures |claims| == |outcomes| && (|claims| == 0 || |claims| <= cfg.batchSize)
      ensures processedAny <==> AnyNormal(outcomes)
      ensures crashed <==> CommitFailed in outcomes
      ensures crashed ==> outcomes[|outcomes| - 1] == CommitFailed && CommitFailed !in outcomes[..|outcomes| - 1]
      ensures crashed ==> claims[|claims| - 1] in meetings && meetings[claims[|claims| - 1]].summaryState == "processing"
      ensures !crashed && |claims| < cfg.batchSize ==> !HasClaimable(meetings, cfg.targetStatuses)
      ensures meetings.Keys == old(meetings).Keys
      ensures forall id :: id in meetings && id !in claims ==> meetings[id] == old(meetings)[id]
      ensures forall id :: id in claims && !(crashed && id == claims[|claims| - 1]) ==>
                id in meetings && meetings[id].summaryState in FinalStates
    {
      processedAny, crashed := false, false;
      claims := [];
      outcomes := [];
      while |claims| < cfg.batchSize
        invariant Valid()
        invariant |claims| == |outcomes| && (|claims| == 0 || |claims| <= cfg.batchSize)
        invariant processedAny <==> AnyNormal(outcomes)
        invariant CommitFailed !in outcomes
        invariant meetings.Keys == old(meetings).Keys
        invariant forall id :: id in meetings && id !in claims ==> meetings[id] == old(meetings)[id]
        invariant forall id :: id in claims ==> id in meetings && meetings[id].summaryState in FinalStates
        decreases cfg.batchSize - |claims|
      {
        var claimed := SelectNextMeeting(cfg.targetStatuses, now);
        if claimed.None? {
          break;
        }
        var id := claimed.value;
        var outcome := ProcessClaimed(id, cfg, svc, now);
        if Normal(outcome) {
          processedAny := true;
        }
        AnyNormalAppend(outcomes, outcome);
        assert (outcomes + [outcome])[..|outcomes|] == outcomes;
        claims := claims + [id];
        outcomes := outcomes + [outcome];
        if outcome == CommitFailed {
          crashed := true;
          return;
        }
      }
    }

    /** One claimed meeting: process_meeting, then the mark "error" when it raised. When
        the commit failed, the handler's own commit raises and nothing changes. */
    method ProcessClaimed(id: int, cfg: WorkerConfig, svc: Services, now: int) returns (outcome: MeetingOutcome)
      requires Valid() && id in meetings
      modifies this
      ensures Valid()
      ensures meetings.Keys == old(meetings).Keys
      ensures forall k :: k in meetings && k != id ==> meetings[k] == old(meetings)[k]
      ensures outcome != CommitFailed ==> meetings[id].summaryState in FinalStates
      ensures outcome == CommitFailed ==> State() == old(State())
      ensures outcome.Raised? ==> meetings == old(meetings)[id := ErrorMeeting(old(meetings)[id], now)]
    {
      var calls;
      outcome, calls := ProcessMeeting(id, cfg, svc, now);
      if outcome.Raised? {
        meetings := meetings[id := ErrorMeeting(meetings[id], now)];
      }
    }
  }
}
