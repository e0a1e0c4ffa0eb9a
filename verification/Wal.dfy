/** The segmented write-ahead log: append with rotation, crash, recovery and truncation. */
module Wal {
  import opened RaftTypes
  import opened ByteCodec
  import opened WalFormat

  /** A segment file: the number in its name, its bytes, and how many of them are synced. */
  datatype File = File(sequence: nat, bytes: Bytes, synced: nat)

  /** What a segment holds. */
  datatype Segment = Segment(sequence: nat, first: nat, entries: seq<Entry>)

  // ---- Segment headers -----------------------------------------------------

  function Header32(sequence: nat, first: nat): (bytes: Bytes)
    ensures |bytes| == 32
  {
    SEGMENT_MAGIC + Le(VERSION, 2) + Le(SEGMENT_HEADER, 2) + Le(0, 4) + Le(sequence, 8) + Le(first, 8)
  }

  function Header(sequence: nat, first: nat, crc: Checksum): (bytes: Bytes)
    ensures |bytes| == SEGMENT_HEADER
  {
    Header32(sequence, first) + Le(crc(Header32(sequence, first)), 4) + Le(0, 4)
  }

  /** The first index a segment claims; None if the header is malformed. */
  function ParseHeader(f: File, crc: Checksum): Option<nat> {
    var b := f.bytes;
    if |b| < SEGMENT_HEADER then None
    else if b[..8] != SEGMENT_MAGIC || Field(b, 8, 2) != VERSION || Field(b, 10, 2) != SEGMENT_HEADER
            || Field(b, 12, 4) != 0 || Field(b, 36, 4) != 0 then None
    else
      var sequence, first := Field(b, 16, 8), Field(b, 24, 8);
      if sequence == 0 || first == 0 || sequence != f.sequence || Field(b, 32, 4) != crc(b[..32]) then None
      else Some(first)
  }

  lemma {:induction false} HeaderSlices(sequence: nat, first: nat, sum: Bytes, tail: Bytes, rest: Bytes)
    requires |sum| == 4 && |tail| == 4
    ensures var b := Header32(sequence, first) + sum + tail + rest;
      && b[..32] == Header32(sequence, first) && b[..8] == SEGMENT_MAGIC && b[8..10] == Le(VERSION, 2)
      && b[10..12] == Le(SEGMENT_HEADER, 2) && b[12..16] == Le(0, 4) && b[16..24] == Le(sequence, 8)
      && b[24..32] == Le(first, 8) && b[32..36] == sum && b[36..40] == tail && b[40..] == rest
  {
    hide Le;
    var s1 := SEGMENT_MAGIC + Le(VERSION, 2);
    var s2 := s1 + Le(SEGMENT_HEADER, 2);
    var s3 := s2 + Le(0, 4);
    var s4 := s3 + Le(sequence, 8);
    var h := s4 + Le(first, 8);
    var s6 := h + sum;
    var s7 := s6 + tail;
    var b := s7 + rest;
    Piece(SEGMENT_MAGIC, Le(VERSION, 2), b);
    Piece(s1, Le(SEGMENT_HEADER, 2), b);
    Piece(s2, Le(0, 4), b);
    Piece(s3, Le(sequence, 8), b);
    Piece(s4, Le(first, 8), b);
    Piece(h, sum, b);
    Piece(s6, tail, b);
  }

  lemma {:induction false} HeaderParses(sequence: nat, first: nat, crc: Checksum, rest: Bytes, synced: nat)
    requires 0 < sequence < Span(8) && 0 < first < Span(8) && forall b :: crc(b) < Span(4)
    ensures ParseHeader(File(sequence, Header(sequence, first, crc) + rest, synced), crc) == Some(first)
    ensures (Header(sequence, first, crc) + rest)[SEGMENT_HEADER..] == rest
  {
    Spans();
    HeaderSlices(sequence, first, Le(crc(Header32(sequence, first)), 4), Le(0, 4), rest);
    hide Header32, Le, FromLe, Span;
    ReadsBack(VERSION, 2);
    ReadsBack(SEGMENT_HEADER, 2);
    ReadsBack(0, 4);
    ReadsBack(sequence, 8);
    ReadsBack(first, 8);
    ReadsBack(crc(Header32(sequence, first)), 4);
  }

  // ---- Recovery ------------------------------------------------------------

  datatype Recovery = Failed | Recovered(entries: seq<Entry>, files: seq<File>, next: Option<nat>)

  /** Scans the files in order. A torn tail of the last file is cut off and synced. */
  function RecoverFrom(files: seq<File>, limits: Limits, crc: Checksum, expected: Option<nat>, room: nat): Recovery
    decreases |files|
  {
    if files == [] then Recovered([], [], expected)
    else
      var f := files[0];
      var first := ParseHeader(f, crc);
      if |f.bytes| > limits.segmentBytes || first.None? || (expected.Some? && first != expected) then Failed
      else
        var final := |files| == 1;
        var scan := ScanFrom(f.bytes[SEGMENT_HEADER..], limits, crc, first.value, room, final);
        if scan.Bad? || (scan.entries == [] && !final) then Failed
        else
          var rest := RecoverFrom(files[1..], limits, crc, scan.next, room - |scan.entries|);
          if rest.Failed? then Failed
          else
            var kept := f.bytes[..SEGMENT_HEADER + scan.kept];
            var f' := File(f.sequence, kept, if kept == f.bytes then f.synced else |kept|);
            Recovered(scan.entries + rest.entries, [f'] + rest.files, rest.next)
  }

  predicate Consecutive(files: seq<File>) {
    forall i, j :: 0 <= i < |files| && 0 <= j < |files| && j == i + 1 ==> files[j].sequence == files[i].sequence + 1
  }

  function Recover(files: seq<File>, limits: Limits, crc: Checksum): Recovery {
    if !Consecutive(files) || (exists i :: 0 <= i < |files| && files[i].sequence == 0) then Failed
    else RecoverFrom(files, limits, crc, None, limits.maxRecords)
  }

  // ---- What the files hold -------------------------------------------------

  function SegmentBytes(s: Segment, crc: Checksum): Bytes {
    Header(s.sequence, s.first, crc) + Records(s.entries, crc)
  }

  predicate SegmentOk(s: Segment, limits: Limits) {
    && 0 < s.sequence < Span(8) && 0 < s.first <= U64_MAX && InRange64(s.first, |s.entries|)
    && EntriesOk(s.entries, limits) && Numbered(s.entries, s.first)
    && SEGMENT_HEADER + Size(s.entries) <= limits.segmentBytes
  }

  function Contents(segs: seq<Segment>): seq<Entry> {
    if segs == [] then [] else segs[0].entries + Contents(segs[1..])
  }

  /** Segments follow each other without gaps, and only the last may be empty. */
  predicate Laid(segs: seq<Segment>, limits: Limits) {
    && (forall i :: 0 <= i < |segs| ==> SegmentOk(segs[i], limits))
    && (forall i, j :: 0 <= i < |segs| && 0 <= j < |segs| && j == i + 1 ==> Follows(segs[i], segs[j]))
  }

  predicate Follows(a: Segment, b: Segment) {
    b.sequence == a.sequence + 1 && b.first == a.first + |a.entries| && a.entries != []
  }

  /** The files are the segments, all synced except perhaps the last. */
  predicate Holds(files: seq<File>, segs: seq<Segment>, crc: Checksum) {
    && |files| == |segs|
    && (forall i :: 0 <= i < |files| ==>
          && files[i].sequence == segs[i].sequence && files[i].bytes == SegmentBytes(segs[i], crc)
          && SEGMENT_HEADER <= files[i].synced <= |files[i].bytes|)
    && (forall i :: 0 <= i < |files| - 1 ==> files[i].synced == |files[i].bytes|)
  }

  /** The last file cut to its first `p` bytes. */
  function Cut(files: seq<File>, p: nat): seq<File>
    requires files != [] && p <= |files[|files| - 1].bytes|
  {
    var n := |files| - 1;
    files[..n] + [files[n].(bytes := files[n].bytes[..p], synced := p)]
  }

  /** The segments with the last one reduced to the records that fit in `p` bytes. */
  function Reduced(segs: seq<Segment>, p: nat): seq<Segment>
    requires segs != [] && SEGMENT_HEADER <= p
  {
    var n := |segs| - 1;
    var last := segs[n];
    segs[..n] + [last.(entries := last.entries[..Whole(last.entries, p - SEGMENT_HEADER)])]
  }

  lemma {:induction false} SegmentLength(s: Segment, crc: Checksum)
    ensures |SegmentBytes(s, crc)| == SEGMENT_HEADER + Size(s.entries)
  {
    hide Header;
    RecordsLength(s.entries, crc);
  }

  lemma {:induction false} WholeIsSmall(es: seq<Entry>, p: nat)
    requires p <= Size(es)
    ensures Size(es[..Whole(es, p)]) <= p
    decreases |es|
  {
    if es != [] && RECORD_HEADER + |es[0].payload| <= p {
      var q := p - RECORD_HEADER - |es[0].payload|;
      WholeIsSmall(es[1..], q);
      FirstSlice(es, Whole(es[1..], q));
    } else {
      assert es[..0] == [];
    }
  }

  lemma {:induction false} RecordsPrefix(es: seq<Entry>, k: nat, crc: Checksum)
    requires k <= |es|
    ensures |Records(es, crc)| == Size(es) && Size(es[..k]) <= Size(es)
    ensures Records(es, crc)[..Size(es[..k])] == Records(es[..k], crc)
  {
    assert es == es[..k] + es[k..];
    RecordsAppend(es[..k], es[k..], crc);
    RecordsLength(es, crc);
    RecordsLength(es[..k], crc);
  }

  /** One segment, the last of which may be cut. */
  lemma {:induction false} ScanSegment(s: Segment, p: nat, limits: Limits, crc: Checksum, room: nat, final: bool,
                                       synced: nat)
    requires SegmentOk(s, limits) && LimitsOk(limits) && forall b :: crc(b) < Span(4)
    requires SEGMENT_HEADER <= p <= SEGMENT_HEADER + Size(s.entries) && (final || p == SEGMENT_HEADER + Size(s.entries))
    requires |s.entries| <= room && (!final ==> s.first + |s.entries| <= U64_MAX)
    ensures |SegmentBytes(s, crc)| == SEGMENT_HEADER + Size(s.entries)
    ensures var f := File(s.sequence, SegmentBytes(s, crc)[..p], synced);
      var k := Whole(s.entries, p - SEGMENT_HEADER);
      && |f.bytes| >= SEGMENT_HEADER && ParseHeader(f, crc) == Some(s.first)
      && ScanFrom(f.bytes[SEGMENT_HEADER..], limits, crc, s.first, room, final)
           == Scanned(s.entries[..k], Size(s.entries[..k]), NextIndex(s.first, k))
      && SEGMENT_HEADER + Size(s.entries[..k]) <= p
      && f.bytes[..SEGMENT_HEADER + Size(s.entries[..k])] == SegmentBytes(s.(entries := s.entries[..k]), crc)
  {
    Spans();
    SegmentLength(s, crc);
    RecordsLength(s.entries, crc);
    hide Header, ParseHeader, Records, ScanFrom, Span, EntriesOk, Numbered, Size;
    var q := p - SEGMENT_HEADER;
    var head, body := Header(s.sequence, s.first, crc), Records(s.entries, crc);
    assert (head + body)[..p] == head + body[..q];
    HeaderParses(s.sequence, s.first, crc, body[..q], synced);
    ScanOfPrefix(s.entries, s.first, q, limits, crc, room, final);
    var k := Whole(s.entries, q);
    WholeIsSmall(s.entries, q);
    RecordsPrefix(s.entries, k, crc);
    assert body[..q][..Size(s.entries[..k])] == body[..Size(s.entries[..k])];
    assert (head + body[..q])[..SEGMENT_HEADER + Size(s.entries[..k])] == head + body[..q][..Size(s.entries[..k])];
  }

  /** What recovery finds when the last file is cut to `p` bytes. */
  ghost predicate RecoversTo(segs: seq<Segment>, p: nat, limits: Limits, crc: Checksum, r: Recovery)
    requires segs != [] && SEGMENT_HEADER <= p
  {
    var left := Reduced(segs, p);
    && r.Recovered? && r.entries == Contents(left)
    && Holds(r.files, left, crc)
    && (forall i :: 0 <= i < |r.files| ==> r.files[i].synced == |r.files[i].bytes|)
    && r.next == NextIndex(left[|left| - 1].first, |left[|left| - 1].entries|)
  }

  lemma {:induction false} RecoverLaid(segs: seq<Segment>, files: seq<File>, p: nat, limits: Limits, crc: Checksum,
                                       expected: Option<nat>, room: nat)
    requires segs != [] && Laid(segs, limits) && LimitsOk(limits) && (forall b :: crc(b) < Span(4))
    requires Holds(files, segs, crc) && files[|files| - 1].synced <= p <= |files[|files| - 1].bytes|
    requires SEGMENT_HEADER <= p && |Contents(segs)| <= room && (expected.None? || expected == Some(segs[0].first))
    ensures RecoversTo(segs, p, limits, crc, RecoverFrom(Cut(files, p), limits, crc, expected, room))
    decreases |segs|
  {
    hide RecoverFrom, Laid, Holds, Contents, Reduced, RecoversTo;
    HoldsShape(files, segs, crc);
    if |segs| == 1 {
      RecoverLast(segs, files, p, limits, crc, expected, room);
    } else {
      RecoverFirst(segs, files, p, limits, crc, expected, room);
      var rest, tail := segs[1..], files[1..];
      LaidTail(segs, files, limits, crc);
      RecoverLaid(rest, tail, p, limits, crc, Some(rest[0].first), room - |segs[0].entries|);
      assert Cut(files, p)[1..] == Cut(tail, p);
      var r := RecoverFrom(Cut(tail, p), limits, crc, Some(rest[0].first), room - |segs[0].entries|);
      RecoversCons(segs, files, p, limits, crc, r);
    }
  }

  lemma {:induction false} HoldsShape(files: seq<File>, segs: seq<Segment>, crc: Checksum)
    requires Holds(files, segs, crc)
    ensures |files| == |segs|
    ensures |files| > 0 ==> files[0].sequence == segs[0].sequence && files[0].bytes == SegmentBytes(segs[0], crc)
    ensures |files| > 1 ==> files[0].synced == |files[0].bytes| >= SEGMENT_HEADER
  {
    hide SegmentBytes;
  }

  lemma {:induction false} RecoversCons(segs: seq<Segment>, files: seq<File>, p: nat, limits: Limits, crc: Checksum,
                                        r: Recovery)
    requires |segs| > 1 && SEGMENT_HEADER <= p && Holds(files, segs, crc) && RecoversTo(segs[1..], p, limits, crc, r)
    ensures r.Recovered?
    ensures RecoversTo(segs, p, limits, crc, Recovered(segs[0].entries + r.entries, [files[0]] + r.files, r.next))
  {
    hide SegmentBytes, Contents, Whole;
    ReducedTail(segs, p);
    HoldsShape(files, segs, crc);
    HoldsCons(files[0], r.files, segs[0], Reduced(segs[1..], p), crc, files);
    hide Holds;
  }

  lemma {:induction false} LaidTail(segs: seq<Segment>, files: seq<File>, limits: Limits, crc: Checksum)
    requires |segs| > 1 && Laid(segs, limits) && Holds(files, segs, crc)
    ensures Laid(segs[1..], limits) && Holds(files[1..], segs[1..], crc)
    ensures Contents(segs) == segs[0].entries + Contents(segs[1..])
  {
    hide SegmentOk, SegmentBytes;
    var rest := segs[1..];
    assert forall i :: 0 <= i < |rest| ==> rest[i] == segs[i + 1];
    assert forall i :: 0 <= i < |files[1..]| ==> files[1..][i] == files[i + 1];
  }

  lemma {:induction false} ReducedTail(segs: seq<Segment>, p: nat)
    requires |segs| > 1 && SEGMENT_HEADER <= p
    ensures Reduced(segs, p) == [segs[0]] + Reduced(segs[1..], p)
    ensures Contents(Reduced(segs, p)) == segs[0].entries + Contents(Reduced(segs[1..], p))
  {
    var n := |segs| - 1;
    assert segs[..n] == [segs[0]] + segs[1..][..n - 1];
    assert Reduced(segs, p)[1..] == Reduced(segs[1..], p);
  }

  lemma {:induction false} HoldsCons(f: File, fs: seq<File>, s: Segment, ss: seq<Segment>, crc: Checksum,
                                     files: seq<File>)
    requires |files| > 1 && files[0] == f && Holds(fs, ss, crc) && ss != []
    requires f.sequence == s.sequence && f.bytes == SegmentBytes(s, crc) && f.synced == |f.bytes| >= SEGMENT_HEADER
    ensures Holds([f] + fs, [s] + ss, crc)
  {
    hide SegmentBytes;
    var gs, ts := [f] + fs, [s] + ss;
    assert forall i :: 0 < i < |gs| ==> gs[i] == fs[i - 1] && ts[i] == ss[i - 1];
  }

  /** The first of several segments scans completely. */
  lemma {:induction false} RecoverFirst(segs: seq<Segment>, files: seq<File>, p: nat, limits: Limits, crc: Checksum,
                     expected: Option<nat>, room: nat)
    requires |segs| > 1 && Laid(segs, limits) && LimitsOk(limits) && (forall b :: crc(b) < Span(4))
    requires Holds(files, segs, crc) && p <= |files[|files| - 1].bytes|
    requires |Contents(segs)| <= room && (expected.None? || expected == Some(segs[0].first))
    ensures |segs[0].entries| <= room && files[0].synced == |files[0].bytes| >= SEGMENT_HEADER
    ensures var rest := RecoverFrom(Cut(files, p)[1..], limits, crc, Some(segs[1].first), room - |segs[0].entries|);
      RecoverFrom(Cut(files, p), limits, crc, expected, room)
        == if rest.Failed? then Failed
           else Recovered(segs[0].entries + rest.entries, [files[0]] + rest.files, rest.next)
  {
    hide ScanFrom, ParseHeader, SegmentBytes, Size;
    var s, f := segs[0], files[0];
    assert SegmentOk(s, limits) && SegmentOk(segs[1], limits);
    assert Follows(s, segs[1]);
    WholeAll(s.entries, Size(s.entries));
    assert s.entries[..|s.entries|] == s.entries;
    SegmentLength(s, crc);
    ScanSegment(s, SEGMENT_HEADER + Size(s.entries), limits, crc, room, false, f.synced);
    assert f.bytes[..|f.bytes|] == f.bytes;
    assert Cut(files, p)[0] == f;
    assert s.(entries := s.entries) == s;
    assert Contents(segs) == s.entries + Contents(segs[1..]);
  }

  lemma {:induction false} RecoverLast(segs: seq<Segment>, files: seq<File>, p: nat, limits: Limits, crc: Checksum,
                    expected: Option<nat>, room: nat)
    requires |segs| == 1 && Laid(segs, limits) && LimitsOk(limits) && (forall b :: crc(b) < Span(4))
    requires Holds(files, segs, crc) && files[0].synced <= p <= |files[0].bytes| && SEGMENT_HEADER <= p
    requires |Contents(segs)| <= room && (expected.None? || expected == Some(segs[0].first))
    ensures RecoversTo(segs, p, limits, crc, RecoverFrom(Cut(files, p), limits, crc, expected, room))
  {
    hide ScanFrom, ParseHeader, SegmentBytes, Size, Whole;
    var s := segs[0];
    assert SegmentOk(s, limits) && files[0].bytes == SegmentBytes(s, crc);
    assert Contents(segs) == s.entries by { assert Contents(segs[1..]) == []; assert s.entries + [] == s.entries; }
    SegmentLength(s, crc);
    ScanSegment(s, p, limits, crc, room, true, p);
    var k := Whole(s.entries, p - SEGMENT_HEADER);
    var s' := s.(entries := s.entries[..k]);
    var cut := Cut(files, p);
    assert cut == [File(s.sequence, SegmentBytes(s, crc)[..p], p)];
    assert cut[1..] == [];
    assert Reduced(segs, p) == [s'];
    assert Contents([s']) == s'.entries by { assert [s'][1..] == []; assert s'.entries + [] == s'.entries; }
    assert s.entries[..k] + [] == s.entries[..k];
  }

  // ---- Appending -----------------------------------------------------------

  predicate AppendOk(next: Option<nat>, empty: bool, count: nat, limits: Limits, es: seq<Entry>) {
    && |es| + count <= limits.maxRecords
    && (next.None? ==> empty)
    && EntriesOk(es, limits) && (es != [] ==> Numbered(es, if next.Some? then next.value else es[0].index))
  }

  predicate FitsIn(s: Segment, e: Entry, limits: Limits) {
    SEGMENT_HEADER + Size(s.entries) + RECORD_HEADER + |e.payload| <= limits.segmentBytes
  }

  /** The segments after one more record: it goes to the last one if it fits, else to a new one. */
  function Appended(segs: seq<Segment>, e: Entry, limits: Limits): seq<Segment> {
    if segs == [] then [Segment(1, e.index, [e])]
    else
      var n := |segs| - 1;
      var last := segs[n];
      if FitsIn(last, e, limits)
      then segs[..n] + [last.(entries := last.entries + [e])]
      else segs + [Segment(last.sequence + 1, e.index, [e])]
  }

  function NextOf(segs: seq<Segment>): Option<nat> {
    if segs == [] then None
    else NextIndex(segs[|segs| - 1].first, |segs[|segs| - 1].entries|)
  }

  lemma {:induction false} ContentsAppend(a: seq<Segment>, b: seq<Segment>)
    ensures Contents(a + b) == Contents(a) + Contents(b)
    decreases |a|
  {
    if a == [] {
      assert a + b == b;
    } else {
      assert (a + b)[1..] == a[1..] + b;
      ContentsAppend(a[1..], b);
    }
  }

  lemma {:induction false} ContentsOne(s: Segment)
    ensures Contents([s]) == s.entries
  {
    assert [s][1..] == [];
    assert s.entries + [] == s.entries;
  }

  lemma {:induction false} ContentsLast(segs: seq<Segment>)
    requires segs != []
    ensures Contents(segs) == Contents(segs[..|segs| - 1]) + segs[|segs| - 1].entries
  {
    var n := |segs| - 1;
    assert segs == segs[..n] + [segs[n]];
    ContentsAppend(segs[..n], [segs[n]]);
    ContentsOne(segs[n]);
  }

  lemma {:induction false} SizeOne(es: seq<Entry>, e: Entry)
    ensures Size(es + [e]) == Size(es) + RECORD_HEADER + |e.payload|
  {
    RecordsAppend(es, [e], (b: Bytes) => 0);
    assert [e][1..] == [];
  }

  /** A record that does not fit leaves the last segment with something in it. */
  lemma {:induction false} RotatesFromFull(s: Segment, e: Entry, limits: Limits)
    requires EntryOk(e, limits) && !FitsIn(s, e, limits)
    ensures s.entries != []
  {
  }

  lemma {:induction false} AppendedLaid(segs: seq<Segment>, e: Entry, limits: Limits)
    requires Laid(segs, limits) && LimitsOk(limits) && EntryOk(e, limits)
    requires segs != [] ==> NextOf(segs) == Some(e.index)
    requires segs != [] && !FitsIn(segs[|segs| - 1], e, limits) ==> segs[|segs| - 1].sequence + 1 < Span(8)
    ensures Laid(Appended(segs, e, limits), limits)
    ensures Contents(Appended(segs, e, limits)) == Contents(segs) + [e]
    ensures NextOf(Appended(segs, e, limits)) == NextIndex(e.index, 1)
  {
    hide Contents, EntryOk, Span, Size, Laid;
    FitsIndex(e, limits);
    if segs == [] {
      FirstLaid(e, limits);
    } else if FitsIn(segs[|segs| - 1], e, limits) {
      InPlaceLaid(segs, e, limits);
    } else {
      RotatedLaid(segs, e, limits);
    }
  }

  /** A record goes into the last segment if and only if its bytes leave that one within its limit;
      otherwise, and in an empty log, it starts a segment of its own. */
  lemma AppendedWhere(segs: seq<Segment>, e: Entry, limits: Limits, crc: Checksum)
    ensures var after := Appended(segs, e, limits);
      if segs != [] && |SegmentBytes(segs[|segs| - 1], crc)| + |Record(e, crc)| <= limits.segmentBytes then
        && |after| == |segs| && after[..|segs| - 1] == segs[..|segs| - 1]
        && after[|segs| - 1] == segs[|segs| - 1].(entries := segs[|segs| - 1].entries + [e])
      else
        && |after| == |segs| + 1 && after[..|segs|] == segs && after[|segs|].first == e.index
        && after[|segs|].entries == [e]
        && after[|segs|].sequence == if segs == [] then 1 else segs[|segs| - 1].sequence + 1
  {
    if segs != [] { SegmentLength(segs[|segs| - 1], crc); }
  }

  lemma {:induction false} OneEntryOk(sequence: nat, e: Entry, limits: Limits)
    requires 0 < sequence < Span(8) && EntryOk(e, limits) && IndexFits(e, limits)
    ensures SegmentOk(Segment(sequence, e.index, [e]), limits)
  {
    SizeOne([], e);
    assert [] + [e] == [e];
    NoSize();
    hide EntryOk, Span, Size;
  }

  lemma {:induction false} FirstLaid(e: Entry, limits: Limits)
    requires EntryOk(e, limits) && IndexFits(e, limits)
    ensures var after := Appended([], e, limits);
      Laid(after, limits) && Contents(after) == Contents([]) + [e] && NextOf(after) == NextIndex(e.index, 1)
  {
    Spans();
    hide EntryOk, Span, Size;
    OneEntryOk(1, e, limits);
    ContentsOne(Segment(1, e.index, [e]));
  }

  lemma {:induction false} InPlaceLaid(segs: seq<Segment>, e: Entry, limits: Limits)
    requires segs != [] && Laid(segs, limits) && EntryOk(e, limits) && IndexFits(e, limits)
    requires NextOf(segs) == Some(e.index) && FitsIn(segs[|segs| - 1], e, limits)
    ensures var after := Appended(segs, e, limits);
      Laid(after, limits) && Contents(after) == Contents(segs) + [e] && NextOf(after) == NextIndex(e.index, 1)
  {
    hide Contents, EntryOk, Span, Size;
    var n := |segs| - 1;
    var last, after := segs[n], Appended(segs, e, limits);
    assert SegmentOk(last, limits);
    SizeOne(last.entries, e);
    hide Laid;
    ContentsLast(segs);
    ContentsLast(after);
    assert after[..n] == segs[..n];
    assert Contents(segs[..n]) + (last.entries + [e]) == (Contents(segs[..n]) + last.entries) + [e];
    ReplaceLastLaid(segs, after, limits);
  }

  lemma {:induction false} RotatedLaid(segs: seq<Segment>, e: Entry, limits: Limits)
    requires segs != [] && Laid(segs, limits) && EntryOk(e, limits) && IndexFits(e, limits)
    requires NextOf(segs) == Some(e.index) && !FitsIn(segs[|segs| - 1], e, limits)
    requires segs[|segs| - 1].sequence + 1 < Span(8)
    ensures var after := Appended(segs, e, limits);
      Laid(after, limits) && Contents(after) == Contents(segs) + [e] && NextOf(after) == NextIndex(e.index, 1)
  {
    hide Contents, EntryOk, Span, Size, Laid;
    var n := |segs| - 1;
    var last, after := segs[n], Appended(segs, e, limits);
    RotatesFromFull(last, e, limits);
    OneEntryOk(last.sequence + 1, e, limits);
    assert after[..n + 1] == segs;
    ContentsLast(after);
    AddLaid(segs, after, limits);
  }

  predicate IndexFits(e: Entry, limits: Limits) {
    0 < e.index <= U64_MAX && SEGMENT_HEADER + RECORD_HEADER + |e.payload| <= limits.segmentBytes
  }

  lemma {:induction false} FitsIndex(e: Entry, limits: Limits)
    requires EntryOk(e, limits)
    ensures IndexFits(e, limits)
  {
    Spans();
    hide Span;
  }

  lemma {:induction false} NothingHeld()
    ensures Contents([]) == []
  {
  }

  lemma {:induction false} ReplaceLastLaid(segs: seq<Segment>, after: seq<Segment>, limits: Limits)
    requires segs != [] && Laid(segs, limits) && |after| == |segs| && after[..|segs| - 1] == segs[..|segs| - 1]
    requires var n := |segs| - 1;
      after[n].sequence == segs[n].sequence && after[n].first == segs[n].first && SegmentOk(after[n], limits)
    ensures Laid(after, limits)
  {
    hide SegmentOk;
    var n := |segs| - 1;
    assert forall i :: 0 <= i < n ==> after[i] == after[..n][i] == segs[..n][i] == segs[i];
  }

  lemma {:induction false} AddLaid(segs: seq<Segment>, after: seq<Segment>, limits: Limits)
    requires segs != [] && Laid(segs, limits) && |after| == |segs| + 1 && after[..|segs|] == segs
    requires SegmentOk(after[|segs|], limits) && Follows(segs[|segs| - 1], after[|segs|])
    ensures Laid(after, limits)
  {
    hide SegmentOk;
    assert forall i :: 0 <= i < |segs| ==> after[i] == after[..|segs|][i] == segs[i];
  }

  // ---- What survives a crash -----------------------------------------------

  /** How many entries are in records that are wholly synced. */
  function SyncedCount(files: seq<File>, segs: seq<Segment>): nat
    requires |files| == |segs|
  {
    if segs == [] then 0
    else
      var n := |segs| - 1;
      |Contents(segs[..n])|
      + if files[n].synced < SEGMENT_HEADER then 0 else Whole(segs[n].entries, files[n].synced - SEGMENT_HEADER)
  }

  /** A cut at or beyond the synced length keeps a prefix with every synced entry. */
  lemma {:induction false} CutKeepsSynced(files: seq<File>, segs: seq<Segment>, p: nat, limits: Limits, crc: Checksum)
    requires segs != [] && Laid(segs, limits) && Holds(files, segs, crc)
    requires files[|files| - 1].synced <= p <= |files[|files| - 1].bytes|
    ensures Contents(Reduced(segs, p)) <= Contents(segs)
    ensures SyncedCount(files, segs) <= |Contents(Reduced(segs, p))|
  {
    hide Laid, Contents, SegmentBytes;
    var n := |segs| - 1;
    var left := Reduced(segs, p);
    ContentsLast(segs);
    ContentsLast(left);
    assert left[..n] == segs[..n];
    WholeGrows(segs[n].entries, files[n].synced - SEGMENT_HEADER, p - SEGMENT_HEADER);
  }

  lemma {:induction false} ReducedLaid(segs: seq<Segment>, p: nat, limits: Limits)
    requires segs != [] && SEGMENT_HEADER <= p && Laid(segs, limits)
    ensures Laid(Reduced(segs, p), limits)
  {
    hide SegmentOk;
    var n := |segs| - 1;
    var after := Reduced(segs, p);
    assert SegmentOk(after[n], limits) by {
      SegmentPrefixOk(segs[n], Whole(segs[n].entries, p - SEGMENT_HEADER), limits);
    }
    ReplaceLastLaid(segs, after, limits);
  }

  lemma {:induction false} SegmentPrefixOk(s: Segment, k: nat, limits: Limits)
    requires SegmentOk(s, limits) && k <= |s.entries|
    ensures SegmentOk(s.(entries := s.entries[..k]), limits)
  {
    RecordsPrefix(s.entries, k, (b: Bytes) => 0);
  }

  /** Crash recovery: from files that hold the segments, a crash that cuts the last one anywhere
      at or beyond its synced length is repaired by recovery, which returns a prefix of the
      appended entries that contains every synced one, and leaves files that hold exactly it. */
  lemma {:induction false} CrashRecovery(files: seq<File>, segs: seq<Segment>, p: nat, limits: Limits, crc: Checksum)
    requires segs != [] && Laid(segs, limits) && LimitsOk(limits) && (forall b :: crc(b) < Span(4))
    requires Holds(files, segs, crc) && |Contents(segs)| <= limits.maxRecords
    requires files[|files| - 1].synced <= p <= |files[|files| - 1].bytes|
    ensures SEGMENT_HEADER <= p
    ensures var r := Recover(Cut(files, p), limits, crc);
      && RecoversTo(segs, p, limits, crc, r)
      && r.entries <= Contents(segs) && SyncedCount(files, segs) <= |r.entries|
      && Laid(Reduced(segs, p), limits)
  {
    hide RecoverFrom, SegmentBytes, Contents, Size, Whole, SyncedCount;
    RecoverLaid(segs, files, p, limits, crc, None, limits.maxRecords);
    CutKeepsSynced(files, segs, p, limits, crc);
    ReducedLaid(segs, p, limits);
    CutNames(files, segs, p, limits, crc);
  }

  lemma {:induction false} CutNames(files: seq<File>, segs: seq<Segment>, p: nat, limits: Limits, crc: Checksum)
    requires segs != [] && Laid(segs, limits) && Holds(files, segs, crc) && p <= |files[|files| - 1].bytes|
    ensures Consecutive(Cut(files, p)) && forall i :: 0 <= i < |files| ==> Cut(files, p)[i].sequence != 0
  {
    hide SegmentBytes, Size;
    var cut := Cut(files, p);
    forall i | 0 <= i < |files| ensures cut[i].sequence == segs[i].sequence && 0 < segs[i].sequence {
      assert SegmentOk(segs[i], limits);
    }
    forall i, j | 0 <= i < |cut| && 0 <= j < |cut| && j == i + 1 ensures cut[j].sequence == cut[i].sequence + 1 {
      assert Follows(segs[i], segs[j]);
    }
  }

  // ---- Truncation ----------------------------------------------------------

  /** Segments whose last index is at most `index`, apart from the final one, are dropped. */
  function Dropped(segs: seq<Segment>, index: nat): nat {
    if |segs| < 2 || segs[0].first + |segs[0].entries| - 1 > index then 0
    else 1 + Dropped(segs[1..], index)
  }

  lemma {:induction false} DroppedBound(segs: seq<Segment>, index: nat)
    ensures Dropped(segs, index) <= |segs| && (segs != [] ==> Dropped(segs, index) < |segs|)
    decreases |segs|
  {
    if !(|segs| < 2 || segs[0].first + |segs[0].entries| - 1 > index) {
      DroppedBound(segs[1..], index);
    }
  }

  lemma {:induction false} SuffixLaid(segs: seq<Segment>, files: seq<File>, k: nat, limits: Limits, crc: Checksum)
    requires Laid(segs, limits) && Holds(files, segs, crc) && k <= |segs|
    ensures Laid(segs[k..], limits) && Holds(files[k..], segs[k..], crc)
  {
    hide SegmentOk, SegmentBytes;
    var s, f := segs[k..], files[k..];
    assert forall i :: 0 <= i < |s| ==> s[i] == segs[k + i] && f[i] == files[k + i];
  }

  /** Truncation removes only entries up to its target and keeps a contiguous suffix. */
  lemma {:induction false} TruncationKeepsAbove(segs: seq<Segment>, index: nat, limits: Limits)
    requires Laid(segs, limits)
    ensures Dropped(segs, index) <= |segs|
    ensures var k := Dropped(segs, index);
      && Contents(segs) == Contents(segs[..k]) + Contents(segs[k..])
      && forall i :: 0 <= i < |Contents(segs[..k])| ==> Contents(segs[..k])[i].index <= index
    decreases |segs|
  {
    DroppedBound(segs, index);
    var k := Dropped(segs, index);
    assert segs == segs[..k] + segs[k..];
    ContentsAppend(segs[..k], segs[k..]);
    if k > 0 {
      var rest := segs[1..];
      assert Laid(rest, limits) by {
        hide SegmentOk;
        assert forall i :: 0 <= i < |rest| ==> rest[i] == segs[i + 1];
      }
      TruncationKeepsAbove(rest, index, limits);
      assert segs[..k][0] == segs[0] && segs[..k][1..] == rest[..k - 1];
      assert Contents(segs[..k]) == segs[0].entries + Contents(rest[..k - 1]);
      assert SegmentOk(segs[0], limits);
    }
  }

  /** Truncation removes exactly the segments, apart from the final one, that hold nothing above its
      target: a segment goes if and only if its last entry is at or below it. */
  lemma {:induction false} TruncationExact(segs: seq<Segment>, index: nat, i: nat, limits: Limits)
    requires Laid(segs, limits) && i < |segs|
    ensures i < Dropped(segs, index) <==>
      i + 1 < |segs| && forall k :: 0 <= k < |segs[i].entries| ==> segs[i].entries[k].index <= index
    decreases |segs|
  {
    assert SegmentOk(segs[0], limits) && SegmentOk(segs[i], limits);
    if |segs| > 1 {
      assert Follows(segs[0], segs[1]);
      var rest := segs[1..];
      LastEntry(segs[0], limits);
      if i > 0 {
        assert Laid(rest, limits) by {
          hide SegmentOk;
          assert forall i :: 0 <= i < |rest| ==> rest[i] == segs[i + 1];
        }
        TruncationExact(rest, index, i - 1, limits);
        if i + 1 < |segs| {
          assert Follows(segs[i], segs[i + 1]);
          LaterStarts(segs, i, limits);
          LastEntry(segs[i], limits);
        }
      }
    }
  }

  /** The last entry of a segment has its greatest index. */
  lemma LastEntry(s: Segment, limits: Limits)
    requires SegmentOk(s, limits) && s.entries != []
    ensures s.entries[|s.entries| - 1].index == s.first + |s.entries| - 1
    ensures forall k :: 0 <= k < |s.entries| ==> s.entries[k].index <= s.first + |s.entries| - 1
  {
  }

  lemma {:induction false} LaterStarts(segs: seq<Segment>, i: nat, limits: Limits)
    requires Laid(segs, limits) && 0 < i < |segs|
    ensures segs[0].first + |segs[0].entries| <= segs[i].first
  {
    hide SegmentOk;
    assert Follows(segs[i - 1], segs[i]);
    if i > 1 { LaterStarts(segs, i - 1, limits); }
  }

  lemma {:induction false} FewerDropped(segs: seq<Segment>, index: nat, j: nat, limits: Limits)
    requires Laid(segs, limits) && j <= Dropped(segs, index)
    ensures Dropped(segs, index) <= |segs|
    ensures Contents(segs) == Contents(segs[..j]) + Contents(segs[j..])
    ensures forall i :: 0 <= i < |Contents(segs[..j])| ==> Contents(segs[..j])[i].index <= index
  {
    hide Contents, Laid, Dropped;
    TruncationKeepsAbove(segs, index, limits);
    var k := Dropped(segs, index);
    assert segs == segs[..j] + segs[j..] && segs[..k] == segs[..j] + segs[j..k];
    ContentsAppend(segs[..j], segs[j..]);
    ContentsAppend(segs[..j], segs[j..k]);
    forall i | 0 <= i < |Contents(segs[..j])| ensures Contents(segs[..j])[i].index <= index {
      assert Contents(segs[..k])[i] == Contents(segs[..j])[i];
    }
  }

  /** A crash during truncation, after any number `j` of its removals and with the last file cut
      anywhere at or beyond its synced length, loses no entry above the target that was synced:
      recovery returns a contiguous run that starts at most one past the target. */
  lemma {:induction false} TruncationSurvivesCrash(files: seq<File>, segs: seq<Segment>, index: nat, j: nat, p: nat,
                                                   limits: Limits, crc: Checksum, left: seq<File>)
    requires segs != [] && |files| == |segs| && j <= Dropped(segs, index) && j < |files| && left == files[j..]
    requires left != [] && left[|left| - 1].synced <= p <= |left[|left| - 1].bytes|
    requires Laid(segs, limits) && LimitsOk(limits) && (forall b :: crc(b) < Span(4))
    requires Holds(files, segs, crc) && |Contents(segs)| <= limits.maxRecords
    ensures var r := Recover(Cut(left, p), limits, crc);
      && r.Recovered? && r.entries <= Contents(segs[j..])
      && Contents(segs) == Contents(segs[..j]) + Contents(segs[j..])
      && (forall i :: 0 <= i < |Contents(segs[..j])| ==> Contents(segs[..j])[i].index <= index)
      && SyncedCount(files, segs) <= |Contents(segs[..j])| + |r.entries|
  {
    hide Contents, Recover, SegmentBytes, Laid, Dropped, Whole, Reduced;
    FewerDropped(segs, index, j, limits);
    SuffixLaid(segs, files, j, limits, crc);
    var s := segs[j..];
    CrashRecovery(left, s, p, limits, crc);
    SyncedSplit(files, segs, left, s, j);
  }

  lemma {:induction false} SyncedSplit(files: seq<File>, segs: seq<Segment>, left: seq<File>, s: seq<Segment>, j: nat)
    requires |files| == |segs| && j < |segs| && left == files[j..] && s == segs[j..]
    ensures SyncedCount(files, segs) == |Contents(segs[..j])| + SyncedCount(left, s)
  {
    hide Contents, Whole;
    var n := |segs| - 1;
    assert segs[..n] == segs[..j] + segs[j..n] && s[..n - j] == segs[j..n] && s[n - j] == segs[n];
    ContentsAppend(segs[..j], segs[j..n]);
  }
}
