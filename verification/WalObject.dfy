/** `SegmentedWriteAheadLog` as the object it is. The ghost fields `segs` and `acked` say what
    the files hold and how many of the entries were acknowledged as synchronized. */
module WalObject {
  import opened RaftTypes
  import opened ByteCodec
  import opened WalFormat
  import opened Wal

  // ---- Loops over bytes and files ------------------------------------------

  function Prepended(es: seq<Entry>, kept: nat, s: Scan): Scan {
    if s.Bad? then Bad else Scanned(es + s.entries, kept + s.kept, s.next)
  }

  lemma {:induction false} PrependedStep(es: seq<Entry>, kept: nat, e: Entry, s: Scan)
    ensures Prepended(es, kept, Grown(e, s)) == Prepended(es + [e], kept + RECORD_HEADER + |e.payload|, s)
  {
    if s.Scanned? {
      assert es + ([e] + s.entries) == (es + [e]) + s.entries;
    }
  }

  /** The recovery loop over one segment: advances an offset record by record. */
  method ScanBytes(b: Bytes, limits: Limits, crc: Checksum, first: nat, room: nat, final: bool) returns (scan: Scan)
    ensures scan == ScanFrom(b, limits, crc, first, room, final)
  {
    hide ParseRecord;
    var offset, expected, left := 0, first, room;
    var entries: seq<Entry> := [];
    assert b[0..] == b;
    while offset < |b|
      invariant 0 <= offset <= |b|
      invariant ScanFrom(b, limits, crc, first, room, final)
             == Prepended(entries, offset, ScanFrom(b[offset..], limits, crc, expected, left, final))
      decreases |b| - offset
    {
      var rest := b[offset..];
      var p := ParseRecord(rest, limits, crc, expected);
      if p.Corrupt? || (p.Torn? && !final) { return Bad; }
      if p.Torn? {
        assert entries + [] == entries;
        return Scanned(entries, offset, Some(expected));
      }
      if left == 0 { return Bad; }
      var size := RECORD_HEADER + |p.entry.payload|;
      if expected == U64_MAX {
        if offset + size != |b| || !final { return Bad; }
        return Scanned(entries + [p.entry], offset + size, None);
      }
      assert rest[size..] == b[offset + size..];
      PrependedStep(entries, offset, p.entry, ScanFrom(rest[size..], limits, crc, expected + 1, left - 1, final));
      entries := entries + [p.entry];
      offset, expected, left := offset + size, expected + 1, left - 1;
    }
    assert b[offset..] == [] && entries + [] == entries;
    return Scanned(entries, offset, Some(expected));
  }

  function Joined(es: seq<Entry>, files: seq<File>, r: Recovery): Recovery {
    if r.Failed? then Failed else Recovered(es + r.entries, files + r.files, r.next)
  }

  lemma {:induction false} JoinedStep(es: seq<Entry>, files: seq<File>, more: seq<Entry>, f: File, r: Recovery)
    ensures Joined(es, files, if r.Failed? then Failed else Recovered(more + r.entries, [f] + r.files, r.next))
         == Joined(es + more, files + [f], r)
  {
    if r.Recovered? {
      assert es + (more + r.entries) == (es + more) + r.entries;
      assert files + ([f] + r.files) == (files + [f]) + r.files;
    }
  }

  /** The recovery loop over the segment files, in the order of their numbers. */
  method RecoverFiles(files: seq<File>, limits: Limits, crc: Checksum) returns (r: Recovery)
    ensures r == Recover(files, limits, crc)
  {
    hide ScanFrom, ParseHeader, Consecutive;
    if !Consecutive(files) || exists i :: 0 <= i < |files| && files[i].sequence == 0 { return Failed; }
    var entries: seq<Entry> := [];
    var kept: seq<File> := [];
    var expected: Option<nat> := None;
    var room: nat := limits.maxRecords;
    assert files[0..] == files;
    JoinedNothing(RecoverFrom(files, limits, crc, None, room));
    for i := 0 to |files|
      invariant RecoverFrom(files, limits, crc, None, limits.maxRecords)
             == Joined(entries, kept, RecoverFrom(files[i..], limits, crc, expected, room))
    {
      var f, final := files[i], i + 1 == |files|;
      assert files[i..][0] == f && files[i..][1..] == files[i + 1..] && |files[i..]| == |files| - i;
      var first := ParseHeader(f, crc);
      HeaderLong(f, crc);
      if |f.bytes| > limits.segmentBytes || first.None? || (expected.Some? && first != expected) { return Failed; }
      var scan := ScanBytes(f.bytes[SEGMENT_HEADER..], limits, crc, first.value, room, final);
      if scan.Bad? || (scan.entries == [] && !final) { return Failed; }
      var bytes := f.bytes[..SEGMENT_HEADER + scan.kept];
      var f' := File(f.sequence, bytes, if bytes == f.bytes then f.synced else |bytes|);
      JoinedStep(entries, kept, scan.entries, f',
                 RecoverFrom(files[i + 1..], limits, crc, scan.next, room - |scan.entries|));
      entries, kept := entries + scan.entries, kept + [f'];
      expected, room := scan.next, room - |scan.entries|;
    }
    assert files[|files|..] == [] && entries + [] == entries && kept + [] == kept;
    return Recovered(entries, kept, expected);
  }

  lemma {:induction false} HeaderLong(f: File, crc: Checksum)
    ensures ParseHeader(f, crc).Some? ==> |f.bytes| >= SEGMENT_HEADER
  {
    hide Field;
  }

  lemma {:induction false} JoinedNothing(r: Recovery)
    ensures Joined([], [], r) == r
  {
    if r.Recovered? {
      assert [] + r.entries == r.entries && [] + r.files == r.files;
    }
  }

  // ---- One write -----------------------------------------------------------

  lemma {:induction false} BytesGrow(s: Segment, e: Entry, crc: Checksum)
    ensures SegmentBytes(s, crc) + Record(e, crc) == SegmentBytes(s.(entries := s.entries + [e]), crc)
  {
    hide Record, Header;
    RecordsAppend(s.entries, [e], crc);
    OneRecord(e, crc);
    var h, r := Header(s.sequence, s.first, crc), Records(s.entries, crc);
    assert (h + r) + Record(e, crc) == h + (r + Record(e, crc));
  }

  lemma {:induction false} OneRecord(e: Entry, crc: Checksum)
    ensures Records([e], crc) == Record(e, crc)
  {
    hide Record;
    assert [e][1..] == [] && Record(e, crc) + [] == Record(e, crc);
  }

  lemma {:induction false} NewBytes(sequence: nat, e: Entry, crc: Checksum)
    ensures Header(sequence, e.index, crc) + Record(e, crc) == SegmentBytes(Segment(sequence, e.index, [e]), crc)
  {
    hide Record, Header;
    OneRecord(e, crc);
  }

  /** Writing to the last file keeps the match with the segments and loses nothing synced. */
  lemma {:induction false} WriteHolds(files: seq<File>, segs: seq<Segment>, e: Entry, crc: Checksum,
                                      files': seq<File>, segs': seq<Segment>)
    requires segs != [] && Holds(files, segs, crc) && |files'| == |files| && |segs'| == |segs|
    requires var n := |segs| - 1;
      && files'[..n] == files[..n] && segs'[..n] == segs[..n]
      && files'[n] == files[n].(bytes := files[n].bytes + Record(e, crc))
      && segs'[n] == segs[n].(entries := segs[n].entries + [e])
    ensures Holds(files', segs', crc) && SyncedCount(files, segs) <= SyncedCount(files', segs')
  {
    hide Record, SegmentBytes, Whole, Contents, Size;
    var n := |segs| - 1;
    BytesGrow(segs[n], e, crc);
    SegmentLength(segs[n], crc);
    WholeAppend(segs[n].entries, [e], files[n].synced - SEGMENT_HEADER);
    assert forall i :: 0 <= i < n ==> files'[i] == files'[..n][i] == files[i] && segs'[i] == segs'[..n][i] == segs[i];
  }

  /** A new file, its header synced, holding one record. */
  lemma {:induction false} RotateHolds(files: seq<File>, segs: seq<Segment>, e: Entry, sequence: nat, crc: Checksum,
                                       files': seq<File>, segs': seq<Segment>)
    requires Holds(files, segs, crc) && (files != [] ==> files[|files| - 1].synced == |files[|files| - 1].bytes|)
    requires files' == files + [File(sequence, Header(sequence, e.index, crc) + Record(e, crc), SEGMENT_HEADER)]
    requires segs' == segs + [Segment(sequence, e.index, [e])]
    ensures Holds(files', segs', crc) && |Contents(segs)| <= SyncedCount(files', segs')
  {
    NewBytes(sequence, e, crc);
    hide Record, Header, SegmentBytes, Whole, Contents;
    assert segs'[..|segs|] == segs;
    assert forall i :: 0 <= i < |files| ==> files'[i] == files[i] && segs'[i] == segs[i];
  }

  /** Once the last file is synced, everything is. */
  lemma {:induction false} SyncHolds(files: seq<File>, segs: seq<Segment>, crc: Checksum, files': seq<File>)
    requires segs != [] && Holds(files, segs, crc) && |files'| == |files|
    requires var n := |files| - 1;
      files'[..n] == files[..n] && files'[n] == files[n].(synced := |files[n].bytes|)
    ensures Holds(files', segs, crc) && SyncedCount(files', segs) == |Contents(segs)|
  {
    hide SegmentBytes, Whole, Contents, Size;
    var n := |segs| - 1;
    SegmentLength(segs[n], crc);
    WholeAll(segs[n].entries, files'[n].synced - SEGMENT_HEADER);
    ContentsLast(segs);
    assert forall i :: 0 <= i < n ==> files'[i] == files'[..n][i] == files[i];
  }

  /** No number is left for another segment. */
  predicate LastNumberUsed(segs: seq<Segment>) {
    segs != [] && segs[|segs| - 1].sequence + 1 >= Span(8)
  }

  // ---- The object ----------------------------------------------------------

  class WriteAheadLog {
    const limits: Limits
    const crc: Checksum
    var files: seq<File>
    var next: Option<nat>
    var count: nat
    var healthy: bool
    ghost var segs: seq<Segment>
    ghost var acked: nat

    ghost predicate Valid()
      reads this
    {
      && LimitsOk(limits) && (forall b :: crc(b) < Span(4))
      && Laid(segs, limits) && Holds(files, segs, crc)
      && count == |Contents(segs)| <= limits.maxRecords
      && next == NextOf(segs) && acked <= SyncedCount(files, segs)
    }

    constructor (limits: Limits, crc: Checksum)
      requires LimitsOk(limits) && forall b :: crc(b) < Span(4)
      ensures Valid() && healthy && Contents(segs) == [] && acked == 0 && this.limits == limits && this.crc == crc
    {
      this.limits, this.crc := limits, crc;
      files, next, count, healthy := [], None, 0, true;
      segs, acked := [], 0;
    }

    /** Syncs the last file. */
    method SyncLast()
      requires Valid() && files != []
      modifies this`files
      ensures Valid() && SyncedCount(files, segs) == |Contents(segs)| && |files| == |old(files)|
      ensures files[|files| - 1] == old(files)[|files| - 1].(synced := |files[|files| - 1].bytes|)
    {
      hide LimitsOk, Laid, Holds, Contents, SyncedCount, Span;
      HoldsShape(files, segs, crc);
      var n := |files| - 1;
      ghost var before := files;
      files := files[..n] + [files[n].(synced := |files[n].bytes|)];
      assert files[..n] == before[..n];
      SyncHolds(before, segs, crc, files);
      assert acked <= SyncedCount(files, segs) by { CountedAtMost(before, segs, crc); }
    }

    /** Writes one record, rotating first if it does not fit; fails only when the numbers of
        segments run out. */
    method WriteOne(e: Entry) returns (ok: bool)
      requires Valid() && EntryOk(e, limits) && count < limits.maxRecords
      requires segs != [] ==> next == Some(e.index)
      modifies this
      ensures Valid() && healthy == old(healthy) && acked == old(acked)
      ensures ok ==> Contents(segs) == old(Contents(segs)) + [e] && segs != [] && next == NextIndex(e.index, 1)
      ensures !ok ==> segs == old(segs) && segs != [] && segs[|segs| - 1].sequence + 1 >= Span(8)
    {
      hide LimitsOk, Laid, Holds, Contents, SyncedCount, EntryOk, Record, Header, Span, Size;
      HoldsShape(files, segs, crc);
      ghost var was := segs;
      var record := Record(e, crc);
      if files == [] {
        AppendedLaid(segs, e, limits);
        RotateHolds(files, segs, e, 1, crc, [File(1, Header(1, e.index, crc) + record, SEGMENT_HEADER)],
            Appended(segs, e, limits));
        files := [File(1, Header(1, e.index, crc) + record, SEGMENT_HEADER)];
        assert acked <= |Contents(was)| by { CountedAtMost([], was, crc); }
      } else {
        var n := |files| - 1;
        LastLength(files, segs, crc);
        if |record| <= limits.segmentBytes - |files[n].bytes| {
          AppendedLaid(segs, e, limits);
          ghost var before := files;
          files := files[..n] + [files[n].(bytes := files[n].bytes + record)];
          WriteHolds(before, segs, e, crc, files, Appended(segs, e, limits));
        } else {
          SyncLast();
          LastSequence(segs, limits);
          HoldsLast(files, segs, crc);
          if files[n].sequence + 1 >= Span(8) { return false; }
          AppendedLaid(segs, e, limits);
          var sequence := files[n].sequence + 1;
          ghost var before := files;
          files := files + [File(sequence, Header(sequence, e.index, crc) + record, SEGMENT_HEADER)];
          RotateHolds(before, segs, e, sequence, crc, files, Appended(segs, e, limits));
        }
      }
      segs := Appended(segs, e, limits);
      count := count + 1;
      next := NextIndex(e.index, 1);
      return true;
    }

    /** Validates all entries, then writes them one by one; synchronizing acknowledges all. */
    method Append(entries: seq<Entry>, synchronize: bool) returns (ok: bool)
      requires Valid()
      modifies this
      ensures Valid()
      ensures ok ==> old(healthy) && healthy && Contents(segs) == old(Contents(segs)) + entries
      ensures ok ==> entries == [] || AppendOk(old(next), old(files) == [], old(count), limits, entries)
      ensures old(healthy) && AppendOk(old(next), old(files) == [], old(count), limits, entries) ==>
                ok || entries == [] || LastNumberUsed(segs)
      ensures old(healthy) && entries == [] ==> ok
      ensures ok ==> acked == if synchronize && entries != [] then |Contents(segs)| else old(acked)
      ensures !ok ==> exists k :: 0 <= k <= |entries| && Contents(segs) == old(Contents(segs)) + entries[..k]
      ensures !ok ==> acked == old(acked)
      ensures !ok && healthy ==> Contents(segs) == old(Contents(segs))
    {
      hide LimitsOk, Laid, Holds, Contents, SyncedCount, EntryOk, Span, NextOf;
      assert Contents(segs) == Contents(segs) + entries[..0] && Contents(segs) == Contents(segs) + [];
      if !healthy { return false; }
      if entries == [] { return true; }
      HoldsShape(files, segs, crc);
      NextWhenEmpty(segs, crc);
      if !AppendOk(next, files == [], count, limits, entries) { return false; }
      ghost var was := Contents(segs);
      for i := 0 to |entries|
        invariant Valid() && healthy && acked == old(acked)
        invariant Contents(segs) == was + entries[..i] && |was| == old(count)
        invariant i > 0 ==> segs != [] && next == NextIndex(entries[i - 1].index, 1)
        invariant i == 0 ==> next == old(next) && segs == old(segs)
      {
        assert entries[..i + 1] == entries[..i] + [entries[i]];
        assert was + (entries[..i] + [entries[i]]) == (was + entries[..i]) + [entries[i]];
        NextEntry(entries, i, next, limits);
        NextWhenEmpty(segs, crc);
        var written := WriteOne(entries[i]);
        if !written {
          healthy := false;
          return false;
        }
      }
      assert entries[..|entries|] == entries;
      if synchronize {
        HoldsShape(files, segs, crc);
        SyncLast();
        acked := count;
      }
      return true;
    }

    /** The process dies; the last file keeps its first `p` bytes, which include the synced ones.
        The recovered entries are a prefix of what was appended and hold all that was
        acknowledged; afterwards the log holds exactly them. */
    method CrashAndRecover(p: nat) returns (entries: seq<Entry>)
      requires Valid()
      requires files != [] ==> files[|files| - 1].synced <= p <= |files[|files| - 1].bytes|
      modifies this
      ensures Valid() && healthy && acked == old(acked)
      ensures entries == Contents(segs) && entries <= old(Contents(segs)) && acked <= |entries|
    {
      hide LimitsOk, Laid, Holds, Contents, SyncedCount, Span, Recover, Reduced, SegmentBytes;
      HoldsShape(files, segs, crc);
      if files == [] {
        NothingRecovered(limits, crc);
        assert segs == [];
        NothingHeld();
        CountedAtMost(files, segs, crc);
        healthy := true;
        return [];
      }
      CrashRecovery(files, segs, p, limits, crc);
      ghost var left := Reduced(segs, p);
      var r := RecoverFiles(Cut(files, p), limits, crc);
      assert acked <= |r.entries|;
      RecoveredSynced(segs, p, limits, crc, r);
      files, next, count, healthy := r.files, r.next, |r.entries|, true;
      segs := left;
      return r.entries;
    }
  }

  lemma {:induction false} NextWhenEmpty(segs: seq<Segment>, crc: Checksum)
    ensures segs == [] ==> NextOf(segs).None?
  {
  }

  lemma {:induction false} NextEntry(entries: seq<Entry>, i: nat, next: Option<nat>, limits: Limits)
    requires i < |entries| && EntriesOk(entries, limits) && Numbered(entries, entries[0].index)
    ensures EntryOk(entries[i], limits)
    ensures i > 0 ==> NextIndex(entries[i - 1].index, 1) == Some(entries[i].index)
  {
    Spans();
    hide Span;
    assert EntryOk(entries[i], limits);
  }

  /** After recovery nothing is left unsynced. */
  lemma {:induction false} RecoveredSynced(segs: seq<Segment>, p: nat, limits: Limits, crc: Checksum, r: Recovery)
    requires segs != [] && SEGMENT_HEADER <= p && RecoversTo(segs, p, limits, crc, r)
    ensures var left := Reduced(segs, p);
      && Holds(r.files, left, crc) && SyncedCount(r.files, left) == |Contents(left)| == |r.entries|
      && r.next == NextOf(left) && r.entries == Contents(left)
  {
    hide SegmentBytes, Reduced, Contents, Whole;
    var left := Reduced(segs, p);
    assert left != [] by { ReducedShape(segs, p); }
    var n := |left| - 1;
    LastLength(r.files, left, crc);
    AllWhole(left[n].entries, r.files[n].synced - SEGMENT_HEADER);
    ContentsLast(left);
  }

  lemma {:induction false} ReducedShape(segs: seq<Segment>, p: nat)
    requires segs != [] && SEGMENT_HEADER <= p
    ensures |Reduced(segs, p)| == |segs|
  {
  }

  lemma {:induction false} AllWhole(es: seq<Entry>, p: nat)
    requires p == Size(es)
    ensures Whole(es, p) == |es|
  {
    WholeAll(es, p);
  }

  lemma {:induction false} NothingRecovered(limits: Limits, crc: Checksum)
    ensures Recover([], limits, crc) == Recovered([], [], None)
  {
  }

  lemma {:induction false} CountedAtMost(files: seq<File>, segs: seq<Segment>, crc: Checksum)
    requires Holds(files, segs, crc)
    ensures SyncedCount(files, segs) <= |Contents(segs)|
  {
    hide SegmentBytes, Whole;
    if segs != [] { ContentsLast(segs); }
  }

  lemma {:induction false} LastLength(files: seq<File>, segs: seq<Segment>, crc: Checksum)
    requires Holds(files, segs, crc) && segs != []
    ensures |files| == |segs|
    ensures |files[|files| - 1].bytes| == SEGMENT_HEADER + Size(segs[|segs| - 1].entries)
    ensures files[|files| - 1].sequence == segs[|segs| - 1].sequence
  {
    SegmentLength(segs[|segs| - 1], crc);
  }

  lemma {:induction false} HoldsLast(files: seq<File>, segs: seq<Segment>, crc: Checksum)
    requires Holds(files, segs, crc) && segs != []
    ensures |files| == |segs| && files[|files| - 1].sequence == segs[|segs| - 1].sequence
  {
  }

  lemma {:induction false} LastSequence(segs: seq<Segment>, limits: Limits)
    requires Laid(segs, limits) && segs != []
    ensures segs[|segs| - 1].sequence < Span(8)
  {
  }
}
