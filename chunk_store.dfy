/** The retrieval side of the transcript-embedding store: the row shape, the
    fingerprint preimage, the AND-combined filter conditions, the conversion of ranked
    query rows into chunks, and the insights context read from a meeting's data. */
module ChunkStore {
  import opened Wrappers
  import opened Text
  import opened Meetings

  // ---------------------------------------------------------------------------
  // Rows of transcript_embeddings
  // ---------------------------------------------------------------------------

  type Vector = seq<real>

  newtype byte = x: int | 0 <= x < 256

  /** A row with the base columns and the columns the RAG migration adds; SQL NULL is
      None. Dates are day numbers. */
  datatype EmbeddingRow = EmbeddingRow(
    id: int,
    meetingId: int,
    segmentStart: Option<real>,
    segmentEnd: Option<real>,
    speaker: Option<string>,
    text: string,
    timestamp: Option<real>,
    embedding: Vector,
    chunkType: Option<string>,
    meetingNativeId: Option<string>,
    platform: Option<string>,
    language: Option<string>,
    topics: Option<seq<string>>,
    chunkHash: Option<string>,
    meetingDate: Option<int>)

  /** A result row of the similarity query: the embedding row and its similarity to the
      query vector, an opaque totally ordered score computed by the database. */
  datatype ScoredRow = ScoredRow(row: EmbeddingRow, similarity: int)

  /** A retrieved chunk. */
  datatype Chunk = Chunk(
    id: int,
    meetingId: int,
    meetingNativeId: Option<string>,
    platform: Option<string>,
    speaker: Option<string>,
    text: string,
    startTime: Option<real>,
    endTime: Option<real>,
    timestamp: Option<real>,
    chunkType: string,
    language: Option<string>,
    topics: Option<seq<string>>,
    similarityScore: int)

  // ---------------------------------------------------------------------------
  // The chunk fingerprint
  // ---------------------------------------------------------------------------

  /** The string that is hashed: meeting id first, although it is the second argument. */
  function ChunkHashPreimage(text: string, meetingId: int, chunkType: string): string {
    IntToString(meetingId) + ":" + chunkType + ":" + text
  }

  lemma IndexOfAfterPrefix(a: string, b: string, c: char)
    requires c !in a
    ensures IndexOf(a + [c] + b, c) == |a|
  {
    var s := a + [c] + b;
    assert s[|a|] == c;
    assert forall k :: 0 <= k < |a| ==> s[k] == a[k];
  }

  /** Different (meeting id, chunk type, text) give different preimages, as long as the
      chunk types contain no ':'. */
  lemma PreimageDetermines(t1: string, m1: int, c1: string, t2: string, m2: int, c2: string)
    requires ':' !in c1 && ':' !in c2
    requires ChunkHashPreimage(t1, m1, c1) == ChunkHashPreimage(t2, m2, c2)
    ensures m1 == m2 && c1 == c2 && t1 == t2
  {
    var i1, i2 := IntToString(m1), IntToString(m2);
    assert ':' !in i1 && ':' !in i2 by {
      assert forall k :: 0 <= k < |i1| ==> i1[k] != ':';
      assert forall k :: 0 <= k < |i2| ==> i2[k] != ':';
    }
    var p1 := ChunkHashPreimage(t1, m1, c1);
    var p2 := ChunkHashPreimage(t2, m2, c2);
    assert p1 == i1 + [':'] + (c1 + ":" + t1);
    assert p2 == i2 + [':'] + (c2 + ":" + t2);
    IndexOfAfterPrefix(i1, c1 + ":" + t1, ':');
    IndexOfAfterPrefix(i2, c2 + ":" + t2, ':');
    assert i1 == p1[..|i1|] == p2[..|i2|] == i2;
    IntToStringInjective(m1, m2);
    var r1 := p1[|i1| + 1..];
    var r2 := p2[|i2| + 1..];
    assert r1 == c1 + [':'] + t1;
    assert r2 == c2 + [':'] + t2;
    IndexOfAfterPrefix(c1, t1, ':');
    IndexOfAfterPrefix(c2, t2, ':');
    assert c1 == r1[..|c1|] == r2[..|c2|] == c2;
    assert t1 == r1[|c1| + 1..] == r2[|c2| + 1..] == t2;
  }

  /** UTF-8 encoding of one Unicode scalar value. */
  function Utf8Char(c: char): (bytes: seq<byte>)
    ensures 1 <= |bytes| <= 4
  {
    var n := c as int;
    if n < 0x80 then [n as byte]
    else if n < 0x800 then [(0xC0 + n / 64) as byte, (0x80 + n % 64) as byte]
    else if n < 0x10000 then
      [(0xE0 + n / 4096) as byte, (0x80 + (n / 64) % 64) as byte, (0x80 + n % 64) as byte]
    else
      [(0xF0 + n / 262144) as byte, (0x80 + (n / 4096) % 64) as byte,
       (0x80 + (n / 64) % 64) as byte, (0x80 + n % 64) as byte]
  }

  /** str.encode('utf-8') */
  function Utf8(s: string): (bytes: seq<byte>)
    ensures |s| <= |bytes| <= 4 * |s|
  {
    if s == [] then [] else Utf8(s[..|s| - 1]) + Utf8Char(s[|s| - 1])
  }

  predicate IsLowerHex(c: char) {
    ('0' <= c <= '9') || ('a' <= c <= 'f')
  }

  function HexDigit(d: nat): (c: char)
    requires d < 16
    ensures IsLowerHex(c)
  {
    if d < 10 then ('0' as int + d) as char else ('a' as int + d - 10) as char
  }

  /** hexdigest(): two lowercase hex characters per byte, high nibble first. */
  function HexDigest(digest: seq<byte>): (h: string)
    ensures |h| == 2 * |digest|
    ensures forall i :: 0 <= i < |h| ==> IsLowerHex(h[i])
  {
    if digest == [] then []
    else
      var b := digest[0] as int;
      [HexDigit(b / 16), HexDigit(b % 16)] + HexDigest(digest[1..])
  }

  lemma HexDigitInjective(x: nat, y: nat)
    requires x < 16 && y < 16 && HexDigit(x) == HexDigit(y)
    ensures x == y
  {
  }

  lemma HexByteInjective(b1: byte, b2: byte)
    requires HexDigit(b1 as int / 16) == HexDigit(b2 as int / 16)
    requires HexDigit(b1 as int % 16) == HexDigit(b2 as int % 16)
    ensures b1 == b2
  {
    var x, y := b1 as int, b2 as int;
    HexDigitInjective(x / 16, y / 16);
    HexDigitInjective(x % 16, y % 16);
    assert x == 16 * (x / 16) + x % 16;
    assert y == 16 * (y / 16) + y % 16;
  }

  /** Equal hex digests come from equal digests. */
  lemma {:induction false} HexDigestInjective(d1: seq<byte>, d2: seq<byte>)
    requires HexDigest(d1) == HexDigest(d2)
    ensures d1 == d2
  {
    if d1 != [] {
      var h1, h2 := HexDigest(d1), HexDigest(d2);
      assert h1[0] == h2[0] && h1[1] == h2[1];
      HexByteInjective(d1[0], d2[0]);
      assert h1[2..] == HexDigest(d1[1..]);
      assert h2[2..] == HexDigest(d2[1..]);
      HexDigestInjective(d1[1..], d2[1..]);
      assert d1 == [d1[0]] + d1[1..];
      assert d2 == [d2[0]] + d2[1..];
    }
  }

  /** compute_chunk_hash, with SHA-256 (FIPS 180-4) as an uninterpreted function
      producing 32-byte digests. */
  function ComputeChunkHash(sha256: seq<byte> -> seq<byte>, text: string, meetingId: int, chunkType: string): (h: string)
    requires forall m :: |sha256(m)| == 32
    ensures |h| == 64
    ensures forall i :: 0 <= i < |h| ==> IsLowerHex(h[i])
  {
    HexDigest(sha256(Utf8(ChunkHashPreimage(text, meetingId, chunkType))))
  }

  /** Two fingerprints agree exactly when SHA-256 agrees on the two encoded preimages. */
  lemma ChunkHashAgreement(sha256: seq<byte> -> seq<byte>, t1: string, m1: int, c1: string, t2: string, m2: int, c2: string)
    requires forall m :: |sha256(m)| == 32
    ensures ComputeChunkHash(sha256, t1, m1, c1) == ComputeChunkHash(sha256, t2, m2, c2)
        <==> sha256(Utf8(ChunkHashPreimage(t1, m1, c1))) == sha256(Utf8(ChunkHashPreimage(t2, m2, c2)))
  {
    if ComputeChunkHash(sha256, t1, m1, c1) == ComputeChunkHash(sha256, t2, m2, c2) {
      HexDigestInjective(sha256(Utf8(ChunkHashPreimage(t1, m1, c1))), sha256(Utf8(ChunkHashPreimage(t2, m2, c2))));
    }
  }

  // ---------------------------------------------------------------------------
  // Filters
  // ---------------------------------------------------------------------------

  /** The optional filter keys; a key that is not given is None. */
  datatype Filters = Filters(
    meetingId: Option<int>,
    meetingIds: Option<seq<int>>,
    excludeMeetingIds: Option<seq<int>>,
    platform: Option<string>,
    speaker: Option<string>,
    language: Option<string>,
    chunkType: Option<string>,
    dateFrom: Option<int>,
    dateTo: Option<int>)

  /** The empty dict, which is also what a missing `filters` argument becomes. */
  const NoFilters := Filters(None, None, None, None, None, None, None, None, None)

  /** One SQL condition of the WHERE clause. */
  datatype Condition =
    | MeetingIs(id: int)
    | MeetingIn(ids: seq<int>)
    | MeetingNotIn(ids: seq<int>)
    | PlatformIs(value: string)
    | SpeakerIs(value: string)
    | LanguageIs(value: string)
    | ChunkTypeIs(value: string)
    | DateAtLeast(day: int)
    | DateAtMost(day: int)

  /** SQL truth of a condition on a row: a comparison with NULL is never true. */
  predicate Holds(c: Condition, r: EmbeddingRow) {
    match c
    case MeetingIs(id) => r.meetingId == id
    case MeetingIn(ids) => r.meetingId in ids
    case MeetingNotIn(ids) => r.meetingId !in ids
    case PlatformIs(v) => r.platform == Some(v)
    case SpeakerIs(v) => r.speaker == Some(v)
    case LanguageIs(v) => r.language == Some(v)
    case ChunkTypeIs(v) => r.chunkType == Some(v)
    case DateAtLeast(d) => r.meetingDate.Some? && r.meetingDate.value >= d
    case DateAtMost(d) => r.meetingDate.Some? && r.meetingDate.value <= d
  }

  /** and_(*conditions), or no WHERE clause at all when the list is empty. */
  predicate AllHold(conds: seq<Condition>, r: EmbeddingRow) {
    forall i :: 0 <= i < |conds| ==> Holds(conds[i], r)
  }

  function When(present: bool, c: Condition): seq<Condition> {
    if present then [c] else []
  }

  /** The conditions list, in the order the keys are tested. */
  function Conditions(f: Filters): (conds: seq<Condition>)
    ensures f == NoFilters ==> conds == []
  {
    When(f.meetingId.Some?, MeetingIs(f.meetingId.GetOr(0)))
    + When(f.meetingIds.Some?, MeetingIn(f.meetingIds.GetOr([])))
    + When(f.excludeMeetingIds.Some?, MeetingNotIn(f.excludeMeetingIds.GetOr([])))
    + When(f.platform.Some?, PlatformIs(f.platform.GetOr("")))
    + When(f.speaker.Some?, SpeakerIs(f.speaker.GetOr("")))
    + When(f.language.Some?, LanguageIs(f.language.GetOr("")))
    + When(f.chunkType.Some?, ChunkTypeIs(f.chunkType.GetOr("")))
    + When(f.dateFrom.Some?, DateAtLeast(f.dateFrom.GetOr(0)))
    + When(f.dateTo.Some?, DateAtMost(f.dateTo.GetOr(0)))
  }

  /** The filter read field by field: every supplied key constrains the row. */
  predicate Matches(r: EmbeddingRow, f: Filters) {
    && (f.meetingId.Some? ==> r.meetingId == f.meetingId.value)
    && (f.meetingIds.Some? ==> r.meetingId in f.meetingIds.value)
    && (f.excludeMeetingIds.Some? ==> r.meetingId !in f.excludeMeetingIds.value)
    && (f.platform.Some? ==> r.platform == f.platform)
    && (f.speaker.Some? ==> r.speaker == f.speaker)
    && (f.language.Some? ==> r.language == f.language)
    && (f.chunkType.Some? ==> r.chunkType == f.chunkType)
    && (f.dateFrom.Some? ==> r.meetingDate.Some? && f.dateFrom.value <= r.meetingDate.value)
    && (f.dateTo.Some? ==> r.meetingDate.Some? && r.meetingDate.value <= f.dateTo.value)
  }

  lemma AllHoldConcat(a: seq<Condition>, b: seq<Condition>, r: EmbeddingRow)
    ensures AllHold(a + b, r) <==> AllHold(a, r) && AllHold(b, r)
  {
    if AllHold(a, r) && AllHold(b, r) {
      forall i | 0 <= i < |a + b| ensures Holds((a + b)[i], r) {
        if i >= |a| {
          assert (a + b)[i] == b[i - |a|];
        }
      }
    }
    if AllHold(a + b, r) {
      forall i | 0 <= i < |a| ensures Holds(a[i], r) {
        assert (a + b)[i] == a[i];
      }
      forall i | 0 <= i < |b| ensures Holds(b[i], r) {
        assert (a + b)[|a| + i] == b[i];
      }
    }
  }

  lemma AllHoldWhen(p: bool, c: Condition, r: EmbeddingRow)
    ensures AllHold(When(p, c), r) <==> (p ==> Holds(c, r))
  {
    if p {
      assert When(p, c)[0] == c;
    }
  }

  /** The WHERE clause holds of a row exactly when the row matches every supplied filter. */
  lemma ConditionsMatch(f: Filters, r: EmbeddingRow)
    ensures AllHold(Conditions(f), r) <==> Matches(r, f)
  {
    var g1 := When(f.meetingId.Some?, MeetingIs(f.meetingId.GetOr(0)));
    var g2 := When(f.meetingIds.Some?, MeetingIn(f.meetingIds.GetOr([])));
    var g3 := When(f.excludeMeetingIds.Some?, MeetingNotIn(f.excludeMeetingIds.GetOr([])));
    var g4 := When(f.platform.Some?, PlatformIs(f.platform.GetOr("")));
    var g5 := When(f.speaker.Some?, SpeakerIs(f.speaker.GetOr("")));
    var g6 := When(f.language.Some?, LanguageIs(f.language.GetOr("")));
    var g7 := When(f.chunkType.Some?, ChunkTypeIs(f.chunkType.GetOr("")));
    var g8 := When(f.dateFrom.Some?, DateAtLeast(f.dateFrom.GetOr(0)));
    var g9 := When(f.dateTo.Some?, DateAtMost(f.dateTo.GetOr(0)));
    AllHoldConcat(g1, g2, r);
    AllHoldConcat(g1 + g2, g3, r);
    AllHoldConcat(g1 + g2 + g3, g4, r);
    AllHoldConcat(g1 + g2 + g3 + g4, g5, r);
    AllHoldConcat(g1 + g2 + g3 + g4 + g5, g6, r);
    AllHoldConcat(g1 + g2 + g3 + g4 + g5 + g6, g7, r);
    AllHoldConcat(g1 + g2 + g3 + g4 + g5 + g6 + g7, g8, r);
    AllHoldConcat(g1 + g2 + g3 + g4 + g5 + g6 + g7 + g8, g9, r);
    AllHoldWhen(f.meetingId.Some?, MeetingIs(f.meetingId.GetOr(0)), r);
    AllHoldWhen(f.meetingIds.Some?, MeetingIn(f.meetingIds.GetOr([])), r);
    AllHoldWhen(f.excludeMeetingIds.Some?, MeetingNotIn(f.excludeMeetingIds.GetOr([])), r);
    AllHoldWhen(f.platform.Some?, PlatformIs(f.platform.GetOr("")), r);
    AllHoldWhen(f.speaker.Some?, SpeakerIs(f.speaker.GetOr("")), r);
    AllHoldWhen(f.language.Some?, LanguageIs(f.language.GetOr("")), r);
    AllHoldWhen(f.chunkType.Some?, ChunkTypeIs(f.chunkType.GetOr("")), r);
    AllHoldWhen(f.dateFrom.Some?, DateAtLeast(f.dateFrom.GetOr(0)), r);
    AllHoldWhen(f.dateTo.Some?, DateAtMost(f.dateTo.GetOr(0)), r);
  }

  // ---------------------------------------------------------------------------
  // The similarity query and the conversion of its rows into chunks
  // ---------------------------------------------------------------------------

  /** The rows of the table that satisfy the WHERE clause, in table order. */
  function Candidates(table: seq<EmbeddingRow>, f: Filters): (c: seq<EmbeddingRow>)
    ensures forall r :: r in c ==> AllHold(Conditions(f), r)
  {
    if table == [] then []
    else
      var last := table[|table| - 1];
      Candidates(table[..|table| - 1], f) + (if AllHold(Conditions(f), last) then [last] else [])
  }

  function RowsOf(answer: seq<ScoredRow>): (rows: seq<EmbeddingRow>)
    ensures |rows| == |answer|
    ensures forall i :: 0 <= i < |answer| ==> rows[i] == answer[i].row
  {
    seq(|answer|, i requires 0 <= i < |answer| => answer[i].row)
  }

  predicate SortedBySimilarity(rows: seq<ScoredRow>) {
    forall i, j :: 0 <= i < j < |rows| ==> rows[i].similarity >= rows[j].similarity
  }

  predicate ChunksSorted(cs: seq<Chunk>) {
    forall i, j :: 0 <= i < j < |cs| ==> cs[i].similarityScore >= cs[j].similarityScore
  }

  function Min(a: int, b: int): int {
    if a <= b then a else b
  }

  /** What the database may answer to `ORDER BY similarity DESC LIMIT limit` under the
      filters: distinct matching rows carrying their scores, best first, as many as the
      limit allows, and no row left out that scores above a returned one. Rows with equal
      scores may come in any order. */
  ghost predicate IsQueryAnswer(answer: seq<ScoredRow>, table: seq<EmbeddingRow>, f: Filters, limit: nat, score: EmbeddingRow -> int) {
    var candidates := multiset(Candidates(table, f));
    && |answer| == Min(limit, |Candidates(table, f)|)
    && multiset(RowsOf(answer)) <= candidates
    && (forall i :: 0 <= i < |answer| ==> answer[i].similarity == score(answer[i].row))
    && SortedBySimilarity(answer)
    && (forall r, i :: r in candidates - multiset(RowsOf(answer)) && 0 <= i < |answer| ==> score(r) <= answer[i].similarity)
  }

  /** The chunk built from one result row: a copy of the row in which a NULL or empty
      chunk_type reads as 'transcript'. */
  function ChunkOf(sr: ScoredRow): Chunk {
    var r := sr.row;
    Chunk(r.id, r.meetingId, r.meetingNativeId, r.platform, r.speaker, r.text,
          r.segmentStart, r.segmentEnd, r.timestamp, OrElse(r.chunkType, "transcript"),
          r.language, r.topics, sr.similarity)
  }

  function MeetingsOf(cs: seq<Chunk>): set<int> {
    set i | 0 <= i < |cs| :: cs[i].meetingId
  }

  /** The chunks the conversion keeps, read left to right: a row is skipped only when its
      meeting already has a chunk and the limit has been reached. */
  function Converted(rows: seq<ScoredRow>, limit: nat): (cs: seq<Chunk>)
    ensures |cs| <= |rows|
    ensures forall k :: 0 <= k < |cs| ==> exists j :: 0 <= j < |rows| && cs[k] == ChunkOf(rows[j])
  {
    if rows == [] then []
    else
      var prev := Converted(rows[..|rows| - 1], limit);
      var r := rows[|rows| - 1];
      if r.row.meetingId in MeetingsOf(prev) && |prev| >= limit then prev
      else
        assert forall k :: 0 <= k < |prev| ==> exists j :: 0 <= j < |rows| && prev[k] == ChunkOf(rows[j]) by {
          forall k | 0 <= k < |prev| ensures exists j :: 0 <= j < |rows| && prev[k] == ChunkOf(rows[j]) {
            var j :| 0 <= j < |rows| - 1 && prev[k] == ChunkOf(rows[..|rows| - 1][j]);
            assert rows[..|rows| - 1][j] == rows[j];
          }
        }
        prev + [ChunkOf(r)]
  }

  lemma MeetingsOfAppend(cs: seq<Chunk>, c: Chunk)
    ensures MeetingsOf(cs + [c]) == MeetingsOf(cs) + {c.meetingId}
  {
    var ds := cs + [c];
    assert ds[|cs|] == c;
    forall m | m in MeetingsOf(cs) ensures m in MeetingsOf(ds) {
      var i :| 0 <= i < |cs| && cs[i].meetingId == m;
      assert ds[i] == cs[i];
    }
  }

  /** The row-to-chunk loop of fetch_chunks, over the rows the query returned. */
  method FetchChunks(results: seq<ScoredRow>, limit: nat) returns (chunks: seq<Chunk>)
    ensures chunks == Converted(results, limit)
    ensures |results| <= limit ==>
              |chunks| == |results| && forall i :: 0 <= i < |results| ==> chunks[i] == ChunkOf(results[i])
  {
    chunks := [];
    var seenMeetings: set<int> := {};
    var i := 0;
    while i < |results|
      invariant 0 <= i <= |results|
      invariant chunks == Converted(results[..i], limit)
      invariant seenMeetings == MeetingsOf(chunks)
    {
      var embeddingRow := results[i].row;
      assert results[..i + 1][..i] == results[..i];
      if !(embeddingRow.meetingId in seenMeetings && |chunks| >= limit) {
        var chunk := ChunkOf(results[i]);
        MeetingsOfAppend(chunks, chunk);
        chunks := chunks + [chunk];
        seenMeetings := seenMeetings + {embeddingRow.meetingId};
      }
      i := i + 1;
    }
    assert results[..|results|] == results;
    ConvertedWithinLimit(results, limit);
  }

  /** With no more rows than the limit the dedup guard never fires: each row becomes
      exactly one chunk, in order. */
  lemma {:induction false} ConvertedWithinLimit(rows: seq<ScoredRow>, limit: nat)
    ensures |rows| <= limit ==>
              |Converted(rows, limit)| == |rows| && forall i :: 0 <= i < |rows| ==> Converted(rows, limit)[i] == ChunkOf(rows[i])
  {
    if rows != [] && |rows| <= limit {
      var init := rows[..|rows| - 1];
      ConvertedWithinLimit(init, limit);
      var prev := Converted(init, limit);
      assert |prev| < limit;
      assert Converted(rows, limit) == prev + [ChunkOf(rows[|rows| - 1])];
      forall i | 0 <= i < |rows| - 1 ensures Converted(rows, limit)[i] == ChunkOf(rows[i]) {
        assert init[i] == rows[i];
      }
    }
  }

  /** The conversion keeps the query's order: rows best-first give chunks best-first. */
  lemma {:induction false} ConvertedSorted(rows: seq<ScoredRow>, limit: nat)
    requires SortedBySimilarity(rows)
    ensures ChunksSorted(Converted(rows, limit))
  {
    if rows != [] {
      var init := rows[..|rows| - 1];
      var last := rows[|rows| - 1];
      ConvertedSorted(init, limit);
      var prev := Converted(init, limit);
      if !(last.row.meetingId in MeetingsOf(prev) && |prev| >= limit) {
        var cs := prev + [ChunkOf(last)];
        forall i, j | 0 <= i < j < |cs| ensures cs[i].similarityScore >= cs[j].similarityScore {
          if j == |cs| - 1 {
            var k :| 0 <= k < |init| && prev[i] == ChunkOf(init[k]);
            assert init[k] == rows[k];
          } else {
            assert cs[i] == prev[i] && cs[j] == prev[j];
          }
        }
      }
    }
  }

  lemma MultisetMember<T>(x: T, a: seq<T>, b: seq<T>)
    requires multiset(a) <= multiset(b) && x in a
    ensures x in b
  {
    assert x in multiset(a);
  }

  /** fetch_chunks end to end: whatever the database answers, the result has at most
      `limit` chunks, one per answered row and in the same order, best first; every chunk
      comes from a row that matches every supplied filter; nothing matching gives []. */
  lemma FetchedChunksMatch(table: seq<EmbeddingRow>, f: Filters, limit: nat, score: EmbeddingRow -> int, results: seq<ScoredRow>)
    requires IsQueryAnswer(results, table, f, limit, score)
    ensures var chunks := Converted(results, limit);
      && |chunks| == |results| <= limit
      && (forall i :: 0 <= i < |chunks| ==> chunks[i] == ChunkOf(results[i]) && Matches(results[i].row, f))
      && ChunksSorted(chunks)
      && (Candidates(table, f) == [] ==> chunks == [])
  {
    ConvertedWithinLimit(results, limit);
    ConvertedSorted(results, limit);
    var rows := RowsOf(results);
    forall i | 0 <= i < |results| ensures Matches(results[i].row, f) {
      assert rows[i] == results[i].row;
      MultisetMember(rows[i], rows, Candidates(table, f));
      ConditionsMatch(f, results[i].row);
    }
  }

  // ---------------------------------------------------------------------------
  // The insights context of a meeting
  // ---------------------------------------------------------------------------

  datatype InsightsContext = InsightsContext(
    overview: Overview, criticalDeadlines: seq<Deadline>, actionItems: seq<DocActionItem>, blockers: seq<Blocker>)

  /** get_meeting_insights_context on the looked-up meeting: the four keys of a stored
      insights dict, each with its default; None for a missing meeting, empty data, or a
      non-dict insights value. The empty-data test is subsumed by the dict test. */
  function MeetingInsightsContext(meeting: Option<Meeting>): (r: Option<InsightsContext>)
    ensures r.Some? <==> meeting.Some? && meeting.value.data.insightsRu.Some? && meeting.value.data.insightsRu.value.Dict?
    ensures r.Some? ==>
      var doc := meeting.value.data.insightsRu.value.doc;
      && r.value.overview == doc.overview.GetOr(EmptyOverview)
      && r.value.criticalDeadlines == doc.criticalDeadlines.GetOr([])
      && r.value.actionItems == doc.actionItems.GetOr([])
      && r.value.blockers == doc.blockers.GetOr([])
  {
    if meeting.None? || meeting.value.data.IsEmpty() then None
    else
      match meeting.value.data.insightsRu
      case Some(Dict(doc)) =>
        Some(InsightsContext(doc.overview.GetOr(EmptyOverview), doc.criticalDeadlines.GetOr([]),
                             doc.actionItems.GetOr([]), doc.blockers.GetOr([])))
      case _ => None
  }
}
