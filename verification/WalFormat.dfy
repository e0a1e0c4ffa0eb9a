/** The bytes of the segmented write-ahead log: records, segment headers, and the scan that
    recovery makes over them. */
module WalFormat {
  import opened RaftTypes
  import opened ByteCodec

  /** Any checksum of all the bytes; updating it piece by piece is checksumming the whole. */
  type Checksum = Bytes -> nat

  datatype Entry = Entry(term: nat, index: nat, payload: Bytes)

  datatype Limits = Limits(segmentBytes: nat, maxPayload: nat, maxRecords: nat)

  const SEGMENT_HEADER: nat := 40
  const RECORD_HEADER: nat := 40
  const VERSION: nat := 1
  const COMMAND: nat := 1
  /** "KURAWAL1" */
  const SEGMENT_MAGIC: Bytes := [0x4B, 0x55, 0x52, 0x41, 0x57, 0x41, 0x4C, 0x31]
  /** "KREC" */
  const RECORD_MAGIC: Bytes := [0x4B, 0x52, 0x45, 0x43]

  predicate LimitsOk(l: Limits) {
    && SEGMENT_HEADER + RECORD_HEADER <= l.segmentBytes
    && l.maxPayload + SEGMENT_HEADER + RECORD_HEADER <= l.segmentBytes
    && l.segmentBytes < Span(8) && l.maxRecords != 0
  }

  // ---- Records -------------------------------------------------------------

  function Head(e: Entry): (bytes: Bytes)
    ensures |bytes| == 36
  {
    RECORD_MAGIC + Le(VERSION, 2) + Le(COMMAND, 2) + Le(RECORD_HEADER, 4)
    + Le(e.term, 8) + Le(e.index, 8) + Le(|e.payload|, 8)
  }

  function Record(e: Entry, crc: Checksum): (bytes: Bytes)
    ensures |bytes| == RECORD_HEADER + |e.payload|
  {
    Head(e) + Le(crc(Head(e) + e.payload), 4) + e.payload
  }

  function Records(es: seq<Entry>, crc: Checksum): Bytes {
    if es == [] then [] else Record(es[0], crc) + Records(es[1..], crc)
  }

  function Size(es: seq<Entry>): nat {
    if es == [] then 0 else RECORD_HEADER + |es[0].payload| + Size(es[1..])
  }

  lemma {:induction false} RecordsLength(es: seq<Entry>, crc: Checksum)
    ensures |Records(es, crc)| == Size(es)
  {
    if es != [] { RecordsLength(es[1..], crc); }
  }

  lemma {:induction false} RecordsAppend(a: seq<Entry>, b: seq<Entry>, crc: Checksum)
    ensures Records(a + b, crc) == Records(a, crc) + Records(b, crc) && Size(a + b) == Size(a) + Size(b)
  {
    hide Record;
    if a == [] {
      assert a + b == b;
    } else {
      assert (a + b)[1..] == a[1..] + b;
      RecordsAppend(a[1..], b, crc);
      assert Record(a[0], crc) + (Records(a[1..], crc) + Records(b, crc))
          == (Record(a[0], crc) + Records(a[1..], crc)) + Records(b, crc);
    }
  }

  datatype Parsed = Corrupt | Torn | Parsed(entry: Entry)

  /** The record at the front of the bytes. A record is torn if its header or its payload
      reaches past the end; anything else out of place is corruption. */
  function ParseRecord(b: Bytes, limits: Limits, crc: Checksum, expected: nat): (p: Parsed)
    ensures p.Parsed? ==> RECORD_HEADER + |p.entry.payload| <= |b|
  {
    if |b| < RECORD_HEADER then Torn
    else if b[..4] != RECORD_MAGIC || Field(b, 4, 2) != VERSION || Field(b, 6, 2) != COMMAND
            || Field(b, 8, 4) != RECORD_HEADER then Corrupt
    else
      var term, index, length := Field(b, 12, 8), Field(b, 20, 8), Field(b, 28, 8);
      if index == 0 || index != expected then Corrupt
      else if length > limits.maxPayload || length + RECORD_HEADER > limits.segmentBytes then Corrupt
      else if RECORD_HEADER + length > |b| then Torn
      else
        var payload := b[RECORD_HEADER..RECORD_HEADER + length];
        if crc(b[..36] + payload) != Field(b, 36, 4) then Corrupt
        else Parsed(Entry(term, index, payload))
  }

  predicate EntryOk(e: Entry, limits: Limits) {
    && e.term < Span(8) && 0 < e.index < Span(8)
    && |e.payload| <= limits.maxPayload
    && RECORD_HEADER + |e.payload| + SEGMENT_HEADER <= limits.segmentBytes
  }

  lemma {:induction false} HeadSlices(e: Entry, rest: Bytes)
    ensures var b := Head(e) + rest;
      && b[..36] == Head(e) && b[..4] == RECORD_MAGIC && b[4..6] == Le(VERSION, 2) && b[6..8] == Le(COMMAND, 2)
      && b[8..12] == Le(RECORD_HEADER, 4) && b[12..20] == Le(e.term, 8) && b[20..28] == Le(e.index, 8)
      && b[28..36] == Le(|e.payload|, 8)
  {
    hide Le;
    var s1 := RECORD_MAGIC + Le(VERSION, 2);
    var s2 := s1 + Le(COMMAND, 2);
    var s3 := s2 + Le(RECORD_HEADER, 4);
    var s4 := s3 + Le(e.term, 8);
    var s5 := s4 + Le(e.index, 8);
    var h := s5 + Le(|e.payload|, 8);
    var b := h + rest;
    Piece(RECORD_MAGIC, Le(VERSION, 2), b);
    Piece(s1, Le(COMMAND, 2), b);
    Piece(s2, Le(RECORD_HEADER, 4), b);
    Piece(s3, Le(e.term, 8), b);
    Piece(s4, Le(e.index, 8), b);
    Piece(s5, Le(|e.payload|, 8), b);
  }

  /** What the header of a record says, however much follows it. */
  lemma {:induction false} HeadReads(e: Entry, limits: Limits, rest: Bytes)
    requires EntryOk(e, limits) && LimitsOk(limits)
    ensures var b := Head(e) + rest;
      && b[..4] == RECORD_MAGIC && Field(b, 4, 2) == VERSION && Field(b, 6, 2) == COMMAND
      && Field(b, 8, 4) == RECORD_HEADER && Field(b, 12, 8) == e.term && Field(b, 20, 8) == e.index
      && Field(b, 28, 8) == |e.payload|
  {
    Spans();
    HeadSlices(e, rest);
    hide Head, Le, FromLe, Span;
    ReadsBack(VERSION, 2);
    ReadsBack(COMMAND, 2);
    ReadsBack(RECORD_HEADER, 4);
    ReadsBack(e.term, 8);
    ReadsBack(e.index, 8);
    ReadsBack(|e.payload|, 8);
  }

  lemma {:induction false} WholeRecordSlices(h: Bytes, sum: Bytes, payload: Bytes, rest: Bytes)
    requires |h| == 36 && |sum| == 4
    ensures var b := h + sum + payload + rest;
      && b == h + (sum + payload + rest) && b[..36] == h && b[36..40] == sum
      && b[40..40 + |payload|] == payload && b[40 + |payload|..] == rest
  {
  }

  /** A whole record parses to its entry, whatever comes after it. */
  lemma {:induction false} ParsesWhole(e: Entry, limits: Limits, crc: Checksum, rest: Bytes)
    requires EntryOk(e, limits) && LimitsOk(limits) && forall b :: crc(b) < Span(4)
    ensures var b := Record(e, crc) + rest;
      ParseRecord(b, limits, crc, e.index) == Parsed(e) && b[RECORD_HEADER + |e.payload|..] == rest
  {
    var sum := Le(crc(Head(e) + e.payload), 4);
    hide Head, Le, FromLe, Span;
    WholeRecordSlices(Head(e), sum, e.payload, rest);
    HeadReads(e, limits, sum + e.payload + rest);
    ReadsBack(crc(Head(e) + e.payload), 4);
  }

  /** A record cut short is recognised as torn. */
  lemma {:induction false} ParsesTorn(e: Entry, limits: Limits, crc: Checksum, k: nat)
    requires EntryOk(e, limits) && LimitsOk(limits) && k < RECORD_HEADER + |e.payload|
    ensures ParseRecord(Record(e, crc)[..k], limits, crc, e.index) == Torn
  {
    if k >= RECORD_HEADER {
      var b := Record(e, crc)[..k];
      assert b == Head(e) + Record(e, crc)[36..k] by { TornSplit(e, crc, k); }
      hide Head, Le, FromLe, Span, Record;
      HeadReads(e, limits, Record(e, crc)[36..k]);
    }
  }

  lemma {:induction false} TornSplit(e: Entry, crc: Checksum, k: nat)
    requires 36 <= k <= |Record(e, crc)|
    ensures Record(e, crc)[..k] == Head(e) + Record(e, crc)[36..k]
  {
    hide Head, Le;
    var r := Record(e, crc);
    assert r[..36] == Head(e);
    assert r[..k] == r[..36] + r[36..k];
  }

  // ---- Scanning a segment --------------------------------------------------

  /** `kept` is the length of the good part; `next` is the index expected after it, None after
      the last index there is. */
  datatype Scan = Bad | Scanned(entries: seq<Entry>, kept: nat, next: Option<nat>)

  function Grown(e: Entry, rest: Scan): Scan {
    if rest.Bad? then Bad
    else Scanned([e] + rest.entries, RECORD_HEADER + |e.payload| + rest.kept, rest.next)
  }

  function ScanFrom(b: Bytes, limits: Limits, crc: Checksum, expected: nat, room: nat, final: bool): (s: Scan)
    ensures s.Scanned? ==> |s.entries| <= room && s.kept <= |b|
    decreases |b|
  {
    if b == [] then Scanned([], 0, Some(expected))
    else
      var p := ParseRecord(b, limits, crc, expected);
      if p.Corrupt? || (p.Torn? && !final) then Bad
      else if p.Torn? then Scanned([], 0, Some(expected))
      else if room == 0 then Bad
      else
        var size := RECORD_HEADER + |p.entry.payload|;
        if expected == U64_MAX then
          if |b| == size && final then Scanned([p.entry], size, None) else Bad
        else Grown(p.entry, ScanFrom(b[size..], limits, crc, expected + 1, room - 1, final))
  }

  predicate Numbered(es: seq<Entry>, first: nat) {
    forall i :: 0 <= i < |es| ==> es[i].index == first + i
  }

  predicate EntriesOk(es: seq<Entry>, limits: Limits) {
    forall i :: 0 <= i < |es| ==> EntryOk(es[i], limits)
  }

  /** How many whole records fit in the first `p` bytes. */
  function Whole(es: seq<Entry>, p: nat): (k: nat)
    ensures k <= |es|
  {
    if es == [] || RECORD_HEADER + |es[0].payload| > p then 0
    else 1 + Whole(es[1..], p - RECORD_HEADER - |es[0].payload|)
  }

  lemma {:induction false} WholeAll(es: seq<Entry>, p: nat)
    requires Size(es) <= p
    ensures Whole(es, p) == |es|
  {
    if es != [] { WholeAll(es[1..], p - RECORD_HEADER - |es[0].payload|); }
  }

  lemma {:induction false} WholeGrows(es: seq<Entry>, p: nat, q: nat)
    requires p <= q
    ensures Whole(es, p) <= Whole(es, q)
  {
    if es != [] && RECORD_HEADER + |es[0].payload| <= p {
      WholeGrows(es[1..], p - RECORD_HEADER - |es[0].payload|, q - RECORD_HEADER - |es[0].payload|);
    }
  }

  lemma {:induction false} WholeAppend(a: seq<Entry>, b: seq<Entry>, p: nat)
    requires p <= Size(a)
    ensures Whole(a, p) <= Whole(a + b, p)
  {
    if a != [] && RECORD_HEADER + |a[0].payload| <= p {
      assert (a + b)[1..] == a[1..] + b;
      WholeAppend(a[1..], b, p - RECORD_HEADER - |a[0].payload|);
    }
  }

  function NextIndex(first: nat, n: nat): Option<nat> {
    if first + n > U64_MAX then None else Some(first + n)
  }

  /** The index range of a segment's entries. */
  predicate InRange64(first: nat, n: nat) {
    0 < first && first + n <= U64_MAX + 1
  }

  /** The rule of the torn tail: scanning a prefix of the records gives the entries whose whole
      records are in it. Only the final segment may be cut; a whole one scans completely. */
  lemma {:induction false} ScanOfPrefix(es: seq<Entry>, first: nat, p: nat, limits: Limits, crc: Checksum, room: nat,
                                        final: bool)
    requires EntriesOk(es, limits) && Numbered(es, first) && LimitsOk(limits) && forall b :: crc(b) < Span(4)
    requires p <= Size(es) && (final || p == Size(es)) && |es| <= room && InRange64(first, |es|) && first <= U64_MAX
    requires !final ==> first + |es| <= U64_MAX
    ensures |Records(es, crc)| == Size(es)
    ensures var k := Whole(es, p);
      ScanFrom(Records(es, crc)[..p], limits, crc, first, room, final)
        == Scanned(es[..k], Size(es[..k]), NextIndex(first, k))
    decreases |es|
  {
    RecordsLength(es, crc);
    var b := Records(es, crc)[..p];
    if p == 0 {
      assert b == [];
      WholeNothing(es);
    } else {
      var size := RECORD_HEADER + |es[0].payload|;
      var tail := Records(es[1..], crc);
      RecordsLength(es[1..], crc);
      if size > p {
        assert b == Record(es[0], crc)[..p];
        ParsesTorn(es[0], limits, crc, p);
        assert es[..0] == [];
      } else {
        ScanFirst(es, first, p, limits, crc, room, final);
      }
    }
  }

  lemma {:induction false} WholeNothing(es: seq<Entry>)
    ensures Whole(es, 0) == 0 && es[..0] == [] && Size(es[..0]) == 0
  {
  }

  lemma {:induction false} ScanFirst(es: seq<Entry>, first: nat, p: nat, limits: Limits, crc: Checksum, room: nat,
                                     final: bool)
    requires EntriesOk(es, limits) && Numbered(es, first) && LimitsOk(limits) && forall b :: crc(b) < Span(4)
    requires es != [] && |Records(es, crc)| == Size(es)
    requires RECORD_HEADER + |es[0].payload| <= p <= Size(es)
    requires (final || p == Size(es)) && |es| <= room && InRange64(first, |es|) && first <= U64_MAX
    requires !final ==> first + |es| <= U64_MAX
    ensures var k := Whole(es, p);
      ScanFrom(Records(es, crc)[..p], limits, crc, first, room, final)
        == Scanned(es[..k], Size(es[..k]), NextIndex(first, k))
    decreases |es|, 0
  {
    hide Record, ParseRecord, Records, ScanFrom, EntryOk, Size, LimitsOk;
    var size := RECORD_HEADER + |es[0].payload|;
    FirstSize(es);
    var rest, tail := es[1..], Records(es[1..], crc);
    RecordsLength(rest, crc);
    FirstRecord(es, p, crc);
    var b := Records(es, crc)[..p];
    assert forall i :: 0 <= i < |rest| ==> rest[i] == es[i + 1];
    var k := Whole(rest, p - size);
    FirstSlice(es, k);
    ParsesWhole(es[0], limits, crc, tail[..p - size]);
    if first < U64_MAX {
      ScanOfPrefix(rest, first + 1, p - size, limits, crc, room - 1, final);
      ScanStep(b, limits, crc, es[0], tail[..p - size], first, room, final);
    } else {
      NoSize();
      assert rest == [] && tail[..p - size] == [] && |b| == size;
      ScanLast(b, limits, crc, es[0], first, room, final);
    }
  }

  lemma {:induction false} NoSize()
    ensures Size([]) == 0
  {
  }

  lemma {:induction false} FirstSize(es: seq<Entry>)
    requires es != []
    ensures Size(es) == RECORD_HEADER + |es[0].payload| + Size(es[1..])
  {
  }

  lemma {:induction false} FirstRecord(es: seq<Entry>, p: nat, crc: Checksum)
    requires es != [] && RECORD_HEADER + |es[0].payload| <= p <= |Records(es, crc)|
    ensures var size := RECORD_HEADER + |es[0].payload|;
      var tail := Records(es[1..], crc);
      p - size <= |tail| && Records(es, crc)[..p] == Record(es[0], crc) + tail[..p - size]
  {
    hide Record;
  }

  lemma {:induction false} FirstSlice(es: seq<Entry>, k: nat)
    requires es != [] && k < |es|
    ensures es[..k + 1] == [es[0]] + es[1..][..k]
    ensures Size(es[..k + 1]) == RECORD_HEADER + |es[0].payload| + Size(es[1..][..k])
  {
    assert es[..k + 1][1..] == es[1..][..k];
  }

  lemma {:induction false} ScanStep(b: Bytes, limits: Limits, crc: Checksum, e: Entry, rest: Bytes, expected: nat,
                                    room: nat, final: bool)
    requires ParseRecord(b, limits, crc, expected) == Parsed(e) && |b| >= RECORD_HEADER + |e.payload|
    requires b[RECORD_HEADER + |e.payload|..] == rest && expected < U64_MAX && 0 < room
    ensures ScanFrom(b, limits, crc, expected, room, final)
         == Grown(e, ScanFrom(rest, limits, crc, expected + 1, room - 1, final))
  {
    hide ParseRecord;
  }

  lemma {:induction false} ScanLast(b: Bytes, limits: Limits, crc: Checksum, e: Entry, expected: nat, room: nat,
                                    final: bool)
    requires ParseRecord(b, limits, crc, expected) == Parsed(e) && |b| == RECORD_HEADER + |e.payload|
    requires expected == U64_MAX && 0 < room && final
    ensures ScanFrom(b, limits, crc, expected, room, final) == Scanned([e], |b|, None)
  {
    hide ParseRecord;
  }
}
