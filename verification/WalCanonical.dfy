/** Recovery invents nothing: whatever the files hold, an accepted log is made of canonical segment
    headers and canonical records, contiguous and in order, and all that recovery cuts off is one torn
    record at the end of the last file. */
module WalCanonical {
  import opened RaftTypes
  import opened ByteCodec
  import opened WalFormat
  import opened Wal

  // ---- Records -------------------------------------------------------------

  lemma SplitHead(b: Bytes)
    requires |b| >= 40
    ensures b[..36] == b[..4] + b[4..6] + b[6..8] + b[8..12] + b[12..20] + b[20..28] + b[28..36]
    ensures b[..40] == b[..36] + b[36..40]
  {
  }

  /** A record that parses is the encoding of its entry. */
  lemma ParsedIsRecord(b: Bytes, limits: Limits, crc: Checksum, expected: nat)
    requires ParseRecord(b, limits, crc, expected).Parsed?
    ensures var e := ParseRecord(b, limits, crc, expected).entry;
      && b[..RECORD_HEADER + |e.payload|] == Record(e, crc) && e.index == expected
      && e.term < Span(8) && 0 < e.index < Span(8) && |e.payload| <= limits.maxPayload
  {
    hide Le, FromLe, Span;
    var e := ParseRecord(b, limits, crc, expected).entry;
    FieldBack(b, 4, 2);
    FieldBack(b, 6, 2);
    FieldBack(b, 8, 4);
    FieldBack(b, 12, 8);
    FieldBack(b, 20, 8);
    FieldBack(b, 28, 8);
    FieldBack(b, 36, 4);
    SplitHead(b);
    assert b[..36] == Head(e);
    assert b[..40 + |e.payload|] == b[..40] + b[40..40 + |e.payload|];
  }

  /** What a scan returns is on disk, byte for byte, in order; what it leaves is one torn record. */
  predicate ScansTo(b: Bytes, limits: Limits, crc: Checksum, first: nat, final: bool, s: Scan)
    requires s.Scanned?
  {
    && s.kept == Size(s.entries) && s.kept <= |b| && b[..s.kept] == Records(s.entries, crc)
    && Numbered(s.entries, first) && s.next == NextIndex(first, |s.entries|) && (s.next.None? ==> final)
    && (s.kept < |b| ==> final && first + |s.entries| <= U64_MAX
                         && ParseRecord(b[s.kept..], limits, crc, first + |s.entries|).Torn?)
    && forall i :: 0 <= i < |s.entries| ==>
         s.entries[i].term < Span(8) && 0 < s.entries[i].index < Span(8) && |s.entries[i].payload| <= limits.maxPayload
  }

  lemma {:induction false} ScanIsCanonical(b: Bytes, limits: Limits, crc: Checksum, first: nat, room: nat, final: bool)
    requires 0 < first <= U64_MAX && ScanFrom(b, limits, crc, first, room, final).Scanned?
    ensures ScansTo(b, limits, crc, first, final, ScanFrom(b, limits, crc, first, room, final))
    decreases |b|
  {
    hide ParseRecord, Record, Span;
    var p := ParseRecord(b, limits, crc, first);
    if b == [] || p.Torn? {
      assert b[0..] == b && b[..0] == [];
    } else {
      ParsedIsRecord(b, limits, crc, first);
      var e := p.entry;
      var size := RECORD_HEADER + |e.payload|;
      OneEntry(e, crc);
      if first == U64_MAX {
        assert b[..size] == b;
      } else {
        ScanIsCanonical(b[size..], limits, crc, first + 1, room - 1, final);
        GrownIsCanonical(b, limits, crc, first, final, e, ScanFrom(b[size..], limits, crc, first + 1, room - 1, final));
      }
    }
  }

  lemma OneEntry(e: Entry, crc: Checksum)
    ensures Records([e], crc) == Record(e, crc) && Size([e]) == RECORD_HEADER + |e.payload|
  {
    hide Record;
    assert [e][1..] == [] && Record(e, crc) + [] == Record(e, crc);
  }

  lemma GrownIsCanonical(b: Bytes, limits: Limits, crc: Checksum, first: nat, final: bool, e: Entry, rest: Scan)
    requires RECORD_HEADER + |e.payload| <= |b| && b[..RECORD_HEADER + |e.payload|] == Record(e, crc)
    requires e.index == first < U64_MAX && e.term < Span(8) && 0 < e.index < Span(8) && |e.payload| <= limits.maxPayload
    requires rest.Scanned? && ScansTo(b[RECORD_HEADER + |e.payload|..], limits, crc, first + 1, final, rest)
    ensures ScansTo(b, limits, crc, first, final, Grown(e, rest))
  {
    hide ParseRecord, Record, Span;
    var size := RECORD_HEADER + |e.payload|;
    var all := Grown(e, rest);
    assert all.entries[1..] == rest.entries;
    assert b[..size + rest.kept] == b[..size] + b[size..][..rest.kept];
    assert b[size + rest.kept..] == b[size..][rest.kept..];
  }

  // ---- Segments ------------------------------------------------------------

  lemma SplitHeader(b: Bytes)
    requires |b| >= 40
    ensures b[..32] == b[..8] + b[8..10] + b[10..12] + b[12..16] + b[16..24] + b[24..32]
    ensures b[..40] == b[..32] + b[32..36] + b[36..40]
  {
  }

  /** A header that parses is the one that was written for its segment. */
  lemma ParsedIsHeader(f: File, crc: Checksum)
    requires ParseHeader(f, crc).Some?
    ensures |f.bytes| >= SEGMENT_HEADER
    ensures f.bytes[..SEGMENT_HEADER] == Header(f.sequence, ParseHeader(f, crc).value, crc)
    ensures 0 < f.sequence < Span(8) && 0 < ParseHeader(f, crc).value <= U64_MAX
  {
    Spans();
    hide Le, FromLe, Span;
    var b := f.bytes;
    FieldBack(b, 8, 2);
    FieldBack(b, 10, 2);
    FieldBack(b, 12, 4);
    FieldBack(b, 16, 8);
    FieldBack(b, 24, 8);
    FieldBack(b, 32, 4);
    FieldBack(b, 36, 4);
    SplitHeader(b);
  }

  /** A recovered file: the bytes of its segment, at the front of what was found. Only a torn record
      is missing from it. */
  predicate Restored(found: File, kept: File, s: Segment, limits: Limits, crc: Checksum) {
    && kept.sequence == found.sequence == s.sequence && kept.bytes == SegmentBytes(s, crc) && kept.bytes <= found.bytes
    && (kept.bytes != found.bytes ==>
          s.first + |s.entries| <= U64_MAX
          && ParseRecord(found.bytes[|kept.bytes|..], limits, crc, s.first + |s.entries|).Torn?)
  }

  lemma ScannedSegment(f: File, limits: Limits, crc: Checksum, first: nat, final: bool, scan: Scan)
    requires ParseHeader(f, crc) == Some(first) && |f.bytes| <= limits.segmentBytes && |f.bytes| >= SEGMENT_HEADER
    requires scan.Scanned? && ScansTo(f.bytes[SEGMENT_HEADER..], limits, crc, first, final, scan)
    ensures var s := Segment(f.sequence, first, scan.entries);
      && SegmentOk(s, limits) && scan.next == NextOf([s]) && (scan.next.None? ==> final)
      && SEGMENT_HEADER + scan.kept <= |f.bytes| && f.bytes[..SEGMENT_HEADER + scan.kept] == SegmentBytes(s, crc)
      && (scan.kept + SEGMENT_HEADER < |f.bytes| ==>
            final && first + |s.entries| <= U64_MAX
            && ParseRecord(f.bytes[SEGMENT_HEADER + scan.kept..], limits, crc, first + |s.entries|).Torn?)
  {
    hide ParseRecord, ParseHeader, Header, Records, Span, SegmentOk;
    ParsedIsHeader(f, crc);
    var b, kept := f.bytes, scan.kept;
    assert b[..SEGMENT_HEADER + kept] == b[..SEGMENT_HEADER] + b[SEGMENT_HEADER..][..kept];
    assert b[SEGMENT_HEADER + kept..] == b[SEGMENT_HEADER..][kept..];
    EntriesFit(Segment(f.sequence, first, scan.entries), limits);
  }

  lemma EntriesFit(s: Segment, limits: Limits)
    requires 0 < s.sequence < Span(8) && 0 < s.first <= U64_MAX && Numbered(s.entries, s.first)
    requires SEGMENT_HEADER + Size(s.entries) <= limits.segmentBytes
    requires forall i :: 0 <= i < |s.entries| ==>
      s.entries[i].term < Span(8) && 0 < s.entries[i].index < Span(8) && |s.entries[i].payload| <= limits.maxPayload
    ensures SegmentOk(s, limits)
  {
    Spans();
    hide Span;
    var es := s.entries;
    forall i | 0 <= i < |es| ensures EntryOk(es[i], limits) { SizeHolds(es, i); }
    if es != [] { assert es[|es| - 1].index == s.first + |es| - 1; }
  }

  lemma {:induction false} SizeHolds(es: seq<Entry>, i: nat)
    requires i < |es|
    ensures RECORD_HEADER + |es[i].payload| <= Size(es)
  {
    if i > 0 { SizeHolds(es[1..], i - 1); }
  }

  // ---- Recovery ------------------------------------------------------------

  /** The files are these segments, one after the other; only the last file may have lost a torn
      record. */
  ghost predicate AllRestored(files: seq<File>, r: Recovery, segs: seq<Segment>, limits: Limits, crc: Checksum) {
    && r.Recovered? && |segs| == |files| == |r.files| && Laid(segs, limits) && Contents(segs) == r.entries
    && (forall i :: 0 <= i < |files| ==> Restored(files[i], r.files[i], segs[i], limits, crc))
    && (forall i :: 0 <= i < |files| - 1 ==> r.files[i].bytes == files[i].bytes)
    && (segs != [] ==> r.next == NextOf(segs))
  }

  /** The scan of the first file, if its header parses. */
  function FirstScan(files: seq<File>, limits: Limits, crc: Checksum, room: nat): (s: Scan)
    requires files != []
    ensures s.Scanned? ==> SEGMENT_HEADER + s.kept <= |files[0].bytes| && |s.entries| <= room
  {
    var f := files[0];
    if ParseHeader(f, crc).None? || |f.bytes| < SEGMENT_HEADER then Bad
    else ScanFrom(f.bytes[SEGMENT_HEADER..], limits, crc, ParseHeader(f, crc).value, room, |files| == 1)
  }

  lemma RecoverUnfolds(files: seq<File>, limits: Limits, crc: Checksum, expected: Option<nat>, room: nat)
    requires files != [] && RecoverFrom(files, limits, crc, expected, room).Recovered?
    requires ParseHeader(files[0], crc).Some? ==> |files[0].bytes| >= SEGMENT_HEADER
    ensures var first := ParseHeader(files[0], crc);
      && first.Some? && |files[0].bytes| <= limits.segmentBytes && (expected.Some? ==> first == expected)
      && var scan := FirstScan(files, limits, crc, room);
      && scan.Scanned? && (|files| > 1 ==> scan.entries != [])
      && var rest := RecoverFrom(files[1..], limits, crc, scan.next, room - |scan.entries|);
         var kept := files[0].bytes[..SEGMENT_HEADER + scan.kept];
      && rest.Recovered?
      && RecoverFrom(files, limits, crc, expected, room)
         == Recovered(scan.entries + rest.entries,
                      [File(files[0].sequence, kept, if kept
                          == files[0].bytes then files[0].synced else |kept|)] + rest.files,
                      rest.next)
  {
    hide ParseHeader, ScanFrom, Span;
  }

  lemma RecoverStep(files: seq<File>, limits: Limits, crc: Checksum, expected: Option<nat>, room: nat)
    requires files != [] && RecoverFrom(files, limits, crc, expected, room).Recovered?
    ensures ParseHeader(files[0], crc).Some? && SEGMENT_HEADER <= |files[0].bytes| <= limits.segmentBytes
    ensures expected.Some? ==> ParseHeader(files[0], crc) == expected
    ensures var scan, r := FirstScan(files, limits, crc, room), RecoverFrom(files, limits, crc, expected, room);
      && scan.Scanned? && (|files| > 1 ==> scan.entries != []) && |scan.entries| <= room
      && SEGMENT_HEADER + scan.kept <= |files[0].bytes|
      && var rest := RecoverFrom(files[1..], limits, crc, scan.next, room - |scan.entries|);
      && rest.Recovered? && r.files != [] && r.files[1..] == rest.files && r.entries == scan.entries + rest.entries
      && r.next == rest.next && r.files[0].sequence == files[0].sequence
      && r.files[0].bytes == files[0].bytes[..SEGMENT_HEADER + scan.kept]
  {
    hide ParseHeader, ScanFrom, Header, Span;
    ParsedIsHeader(files[0], crc);
    RecoverUnfolds(files, limits, crc, expected, room);
    hide RecoverFrom;
  }

  lemma {:induction false} RecoveredFrom(files: seq<File>, limits: Limits, crc: Checksum, expected: Option<nat>,
                                         room: nat) returns (segs: seq<Segment>)
    requires Consecutive(files) && RecoverFrom(files, limits, crc, expected, room).Recovered?
    ensures AllRestored(files, RecoverFrom(files, limits, crc, expected, room), segs, limits, crc)
    ensures |RecoverFrom(files, limits, crc, expected, room).entries| <= room && |segs| == |files|
    ensures segs != [] && expected.Some? ==> segs[0].first == expected.value
    decreases |files|
  {
    hide ParseRecord, ParseHeader, ScanFrom, SegmentBytes, SegmentOk, RecoverFrom, FirstScan, AllRestored, Restored,
        NextOf;
    if files == [] {
      segs := [];
      NothingMore(limits, crc, expected, room);
    } else {
      RecoverStep(files, limits, crc, expected, room);
      var r, scan := RecoverFrom(files, limits, crc, expected, room), FirstScan(files, limits, crc, room);
      var segment := FirstSegment(files, r.files[0], limits, crc, room);
      assert Consecutive(files[1..]);
      var more := RecoverFrom(files[1..], limits, crc, scan.next, room - |scan.entries|);
      var rest := RecoveredFrom(files[1..], limits, crc, scan.next, room - |scan.entries|);
      segs := [segment] + rest;
      assert segs[1..] == rest;
      if |files| == 1 { NothingMore(limits, crc, scan.next, room - |scan.entries|); }
      RestoredCons(files, r, segs, limits, crc, more);
    }
  }

  lemma NothingMore(limits: Limits, crc: Checksum, expected: Option<nat>, room: nat)
    ensures RecoverFrom([], limits, crc, expected, room) == Recovered([], [], expected)
    ensures AllRestored([], Recovered([], [], expected), [], limits, crc)
  {
  }

  /** The first file of an accepted log, as the segment it holds. */
  lemma FirstSegment(files: seq<File>, kept: File, limits: Limits, crc: Checksum, room: nat) returns (s: Segment)
    requires files != [] && ParseHeader(files[0], crc).Some?
    requires SEGMENT_HEADER <= |files[0].bytes| <= limits.segmentBytes
    requires FirstScan(files, limits, crc, room).Scanned?
    requires SEGMENT_HEADER + FirstScan(files, limits, crc, room).kept <= |files[0].bytes|
    requires kept.sequence == files[0].sequence
    requires kept.bytes == files[0].bytes[..SEGMENT_HEADER + FirstScan(files, limits, crc, room).kept]
    ensures s.entries == FirstScan(files, limits, crc, room).entries && s.first == ParseHeader(files[0], crc).value
    ensures FirstScan(files, limits, crc, room).next == NextOf([s])
    ensures |files| > 1 ==> NextOf([s]) == Some(s.first + |s.entries|)
    ensures |files| > 1 ==> kept.bytes == files[0].bytes
    ensures SegmentOk(s, limits) && Restored(files[0], kept, s, limits, crc)
  {
    hide ParseRecord, ParseHeader, ScanFrom, SegmentBytes, SegmentOk, ScansTo, Span, Header;
    var f := files[0];
    var first, scan := ParseHeader(f, crc).value, FirstScan(files, limits, crc, room);
    ParsedIsHeader(f, crc);
    ScanIsCanonical(f.bytes[SEGMENT_HEADER..], limits, crc, first, room, |files| == 1);
    ScannedSegment(f, limits, crc, first, |files| == 1, scan);
    s := Segment(f.sequence, first, scan.entries);
    assert SEGMENT_HEADER + scan.kept == |f.bytes| ==> f.bytes[..SEGMENT_HEADER + scan.kept] == f.bytes;
  }

  lemma RestoredCons(files: seq<File>, r: Recovery, segs: seq<Segment>, limits: Limits, crc: Checksum, rest: Recovery)
    requires files != [] && segs != [] && r.Recovered? && r.files != [] && Consecutive(files)
    requires AllRestored(files[1..], rest, segs[1..], limits, crc)
    requires SegmentOk(segs[0], limits) && Restored(files[0], r.files[0], segs[0], limits, crc)
    requires r.files[1..] == rest.files && r.entries == segs[0].entries + rest.entries && r.next == rest.next
    requires |files| == 1 ==> rest.next == NextOf([segs[0]])
    requires |files| > 1 ==>
      r.files[0].bytes == files[0].bytes && segs[0].entries != [] && segs[1].first == segs[0].first + |segs[0].entries|
    ensures AllRestored(files, r, segs, limits, crc)
  {
  }

  /** An accepted log is canonical: the recovered entries are those of contiguous segments whose bytes
      the files hold, and nothing was cut off but a torn record at the end of the last file. */
  lemma RecoveredIsCanonical(files: seq<File>, limits: Limits, crc: Checksum) returns (segs: seq<Segment>)
    requires Recover(files, limits, crc).Recovered?
    ensures AllRestored(files, Recover(files, limits, crc), segs, limits, crc)
    ensures |Recover(files, limits, crc).entries| <= limits.maxRecords
  {
    segs := RecoveredFrom(files, limits, crc, None, limits.maxRecords);
  }
}
