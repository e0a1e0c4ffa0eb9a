/** What the client's steps mean: a publication replaces exactly the pointer that its caller knows, and
    only for the writer; one writer at a time; readers register for a snapshot that is there; and
    collection takes one snapshot that nothing uses. */
module SnapshotMeaning {
  import opened RaftTypes
  import opened ByteCodec
  import opened KeyOrder
  import opened StoreModel
  import opened StoreProofs
  import opened StoreMeaning
  import opened StoreTransaction
  import opened SnapshotReaders

  /** The caller holds the live lease under its token, at a tick that is not in the past. */
  predicate HoldsLease(d: Data, tick: nat, lease: int, token: nat) {
    0 < lease && token != 0 && d.tick <= tick && Live(d, tick, lease) && d.leases[lease].token == token
  }

  /** The key's modification revision is the one that the caller knows, 0 if it knows of none. */
  predicate Knows(d: Data, key: Key, expected: int) {
    expected == if key in d.values then d.values[key].modified else 0
  }

  /** Another write of the key fits its version. */
  predicate Room(d: Data, key: Key) {
    d.revision != INT64_MAX && (key in d.values ==> d.values[key].version != INT64_MAX)
  }

  predicate Unchanged(was: Data, now: Data) {
    now.values == was.values && now.revision == was.revision
  }

  /** The transaction's branch is carried out if its condition holds and it is acceptable; otherwise
      no key changes. */
  lemma GuardedTxn(d: Data, limits: Limits, t: Txn)
    requires DataInv(d, limits) && t.failure == []
    ensures var now := After(d, DoTransact(d, t));
      if RequestOk(d, t) && Condition(d, t) && Accepted(d, t, t.success, |t.success|)
         && !(Effective(d, t.success) && d.revision == INT64_MAX)
      then now.revision == d.revision + (if Effective(d, t.success) then 1 else 0)
           && Leaves(d.values, t.success, now.revision, now.values)
      else Unchanged(d, now)
  {
    hide DataInv, DoTransact, RequestOk, Condition, Accepted, Leaves, Answers, Effective, RefusedAt, Agree, SameLeases;
    TransactionIsMeant(d, limits, t);
    var r := DoTransact(d, t);
    assert After(d, r) == DataOf(d, r);
    if RequestOk(d, t) && !Condition(d, t) {
      NothingAccepted(d, t);
      if r.Done? { NothingLeft(d.values, r.data.revision, r.data.values); }
    }
  }

  lemma NothingAccepted(d: Data, t: Txn)
    ensures Accepted(d, t, [], 0) && !Effective(d, [])
  {
  }

  lemma NothingLeft(was: map<Key, KeyValue>, revision: int, now: map<Key, KeyValue>)
    requires Leaves(was, [], revision, now)
    ensures now == was
  {
    assert forall k :: !PutsKey([], k) && !DeletesKey([], k);
  }

  lemma KeysAreThere(table: Bytes, id: Bytes)
    ensures CurrentKey(table) != [] && WriterKey(table) != [] && SnapshotKey(table, id) != []
    ensures ReaderKey(table, id) != []
    ensures CurrentKey(table) != SnapshotKey(table, id)
  {
    KeysApart(table, id, []);
    assert |CurrentKey(table)| > 0 && |WriterKey(table)| > 0;
    assert |SnapshotKey(table, id)| > 0 && |ReaderKey(table, id)| > 0;
  }

  // ---- Acquiring -----------------------------------------------------------

  /** The writer's key is claimed if and only if nobody holds it and the claimant owns its lease; a
      second writer changes nothing. */
  lemma AcquireMeans(d: Data, limits: Limits, table: Bytes, s: Step)
    requires DataInv(d, limits) && s.Acquire?
    ensures var now, key := Next(d, limits, table, s), WriterKey(table);
      if key !in d.values && HoldsLease(d, s.tick, s.lease, s.token) && d.revision != INT64_MAX then
        && now.revision == d.revision + 1 && key in now.values && OthersKept(d.values, now.values, key)
        && StoredAs(None, key, s.claim, s.lease, now.revision, now.values[key])
      else Unchanged(d, now)
  {
    hide DataInv, WriterKey, DoTransact, Leaves;
    KeysAreThere(table, []);
    var t := AcquireTxn(table, s);
    GuardedTxn(d, limits, t);
    VersionsArePositive(d, limits, WriterKey(table));
    assert t.comparisons[0] == Compare(WriterKey(table), Version, Equal, Number(0));
    assert t.ownership[0] == Ownership(s.lease, s.token)
        && t.success[0] == PutOp(WriterKey(table), s.claim, s.lease, false);
    assert Effective(d, t.success);
    if RequestOk(d, t) && Condition(d, t) {
      assert LiveFor(d, t.tick, t.ownership[0]);
      assert Accepted(d, t, t.success, 1);
    }
    if Leaves(d.values, t.success, Next(d, limits, table, s).revision, Next(d, limits, table, s).values) {
      OneLeft(d.values, t.success[0], Next(d, limits, table, s).revision, Next(d, limits, table, s).values);
    }
  }

  lemma VersionsArePositive(d: Data, limits: Limits, key: Key)
    requires DataInv(d, limits)
    ensures key in d.values ==> d.values[key].version > 0 && d.values[key].modified > 0
  {
  }

  lemma OneLeft(was: map<Key, KeyValue>, op: Op, revision: int, now: map<Key, KeyValue>)
    requires op.PutOp? && Leaves(was, [op], revision, now)
    ensures op.key in now && OthersKept(was, now, op.key)
    ensures StoredAs(Lookup(was, op.key), op.key, op.value, op.lease, revision, now[op.key])
  {
    assert [op][0] == op;
    assert forall k :: !DeletesKey([op], k) && (PutsKey([op], k) <==> k == op.key);
  }

  // ---- Publishing ----------------------------------------------------------

  predicate MayPublish(d: Data, table: Bytes, s: Step)
    requires s.Publish?
  {
    && Knows(d, CurrentKey(table), s.expected) && HoldsLease(d, s.tick, s.lease, s.token)
    && WriterKey(table) in d.values && d.values[WriterKey(table)].lease == s.lease
  }

  /** The pointer is replaced, and its snapshot recorded, in one revision if and only if the caller
      knows the current pointer's revision and is the writer that holds the lease; a stale caller and
      one who is no longer the writer change nothing. */
  lemma PublishMeans(d: Data, limits: Limits, table: Bytes, s: Step)
    requires DataInv(d, limits) && s.Publish? && PointerFits(s.pointer)
    ensures var now, current, snapshot :=
        Next(d, limits, table, s), CurrentKey(table), SnapshotKey(table, s.pointer.snapshot);
      if MayPublish(d, table, s) && Room(d, current) && Room(d, snapshot) then
        && now.revision == d.revision + 1 && current in now.values && snapshot in now.values
        && StoredAs(Lookup(d.values, current), current, EncodePointer(s.pointer), 0, now.revision, now.values[current])
        && StoredAs(Lookup(d.values, snapshot), snapshot, EncodePointer(s.pointer), 0, now.revision,
            now.values[snapshot])
        && (forall k :: k != current && k != snapshot ==> Lookup(now.values, k) == Lookup(d.values, k))
      else Unchanged(d, now)
  {
    hide DataInv, WriterKey, CurrentKey, SnapshotKey, EncodePointer, DoTransact, Leaves, Accepted, Condition, RequestOk,
        MayPublish, Room, Effective, PointerFits;
    KeysAreThere(table, s.pointer.snapshot);
    var t := PublishTxn(table, s);
    GuardedTxn(d, limits, t);
    PublishCondition(d, table, s);
    PublishAccepted(d, table, s);
    var now := Next(d, limits, table, s);
    assert t.success == [t.success[0], t.success[1]];
    if Leaves(d.values, t.success, now.revision, now.values) {
      TwoLeft(d.values, t.success[0], t.success[1], now.revision, now.values);
    }
  }

  lemma PublishCondition(d: Data, table: Bytes, s: Step)
    requires s.Publish? && CurrentKey(table) != [] && WriterKey(table) != []
    ensures RequestOk(d, PublishTxn(table, s)) && Condition(d, PublishTxn(table, s)) <==> MayPublish(d, table, s)
  {
    hide WriterKey, CurrentKey, SnapshotKey, EncodePointer;
    var t := PublishTxn(table, s);
    assert t.comparisons[0] == Compare(CurrentKey(table), Modified, Equal, Number(s.expected));
    assert t.comparisons[1] == Compare(WriterKey(table), LeaseId, Equal, Number(s.lease));
    assert t.ownership[0] == Ownership(s.lease, s.token);
    if RequestOk(d, t) {
      assert True(d.values, t.comparisons[0]) <==> Knows(d, CurrentKey(table), s.expected);
      assert True(d.values, t.comparisons[1]) <==>
        WriterKey(table) in d.values && d.values[WriterKey(table)].lease == s.lease;
      assert LiveFor(d, t.tick, t.ownership[0]) <==> HoldsLease(d, s.tick, s.lease, s.token);
    }
  }

  lemma PublishAccepted(d: Data, table: Bytes, s: Step)
    requires s.Publish? && CurrentKey(table) != SnapshotKey(table, s.pointer.snapshot)
    requires CurrentKey(table) != [] && SnapshotKey(table, s.pointer.snapshot) != []
    ensures var t := PublishTxn(table, s);
      && Effective(d, t.success)
      && (Accepted(d, t, t.success, |t.success|) && d.revision != INT64_MAX <==>
            Room(d, CurrentKey(table)) && Room(d, SnapshotKey(table, s.pointer.snapshot)))
  {
    hide CurrentKey, SnapshotKey, EncodePointer, WriterKey;
    var ops := PublishTxn(table, s).success;
    assert ops[0].PutOp? && ops[0].key == CurrentKey(table) && ops[0].lease == 0;
    assert ops[1].PutOp? && ops[1].key == SnapshotKey(table, s.pointer.snapshot) && ops[1].lease == 0;
    assert Acts(d.values, ops[0]);
  }

  lemma TwoLeft(was: map<Key, KeyValue>, a: Op, b: Op, revision: int, now: map<Key, KeyValue>)
    requires a.PutOp? && b.PutOp? && Leaves(was, [a, b], revision, now)
    ensures a.key in now && StoredAs(Lookup(was, a.key), a.key, a.value, a.lease, revision, now[a.key])
    ensures b.key in now && StoredAs(Lookup(was, b.key), b.key, b.value, b.lease, revision, now[b.key])
    ensures forall k :: k != a.key && k != b.key ==> Lookup(now, k) == Lookup(was, k)
  {
    var ops := [a, b];
    assert ops[0] == a && ops[1] == b;
    assert forall k :: !DeletesKey(ops, k) && (PutsKey(ops, k) <==> k == a.key || k == b.key);
  }

  // ---- Registering ---------------------------------------------------------

  /** A reader is registered, under its lease, if and only if the snapshot's record is exactly the
      pointer that it means to read. */
  lemma RegisterMeans(d: Data, limits: Limits, table: Bytes, s: Step)
    requires DataInv(d, limits) && s.Register? && PointerFits(s.pointer)
    ensures var now, key, snapshot :=
        Next(d, limits, table, s), ReaderKey(table, s.reader), SnapshotKey(table, s.pointer.snapshot);
      if snapshot in d.values && d.values[snapshot].value == EncodePointer(s.pointer)
         && HoldsLease(d, s.tick, s.lease, s.token) && Room(d, key) then
        && now.revision == d.revision + 1 && key in now.values && OthersKept(d.values, now.values, key)
        && StoredAs(Lookup(d.values, key), key, s.pointer.snapshot, s.lease, now.revision, now.values[key])
      else Unchanged(d, now)
  {
    hide DataInv, ReaderKey, SnapshotKey, EncodePointer, DoTransact, Leaves, PointerFits;
    KeysAreThere(table, s.reader);
    KeysAreThere(table, s.pointer.snapshot);
    PointerNotEmpty(s.pointer);
    var t := RegisterTxn(table, s);
    GuardedTxn(d, limits, t);
    assert t.comparisons[0]
        == Compare(SnapshotKey(table, s.pointer.snapshot), Value, Equal, Text(EncodePointer(s.pointer)));
    assert t.ownership[0] == Ownership(s.lease, s.token);
    assert t.success[0] == PutOp(ReaderKey(table, s.reader), s.pointer.snapshot, s.lease, false);
    assert Acts(d.values, t.success[0]);
    if RequestOk(d, t) && Condition(d, t) {
      assert LiveFor(d, t.tick, t.ownership[0]) && True(d.values, t.comparisons[0]);
      assert Accepted(d, t, t.success, 1) <==> !Exhausts(d, t.success[0]);
    }
    if Leaves(d.values, t.success, Next(d, limits, table, s).revision, Next(d, limits, table, s).values) {
      OneLeft(d.values, t.success[0], Next(d, limits, table, s).revision, Next(d, limits, table, s).values);
    }
  }

  // ---- Collecting ----------------------------------------------------------

  /** Some registered reader uses the snapshot. */
  predicate HasReader(d: Data, table: Bytes, id: Bytes) {
    exists k :: k in d.values && HasPrefix(k, ReadersPrefix(table)) && d.values[k].value == id
  }

  /** A snapshot's record is deleted, and nothing else, if and only if it is there, the current pointer
      does not name it and no reader is registered for it. */
  lemma CollectMeans(d: Data, limits: Limits, table: Bytes, s: Step)
    requires DataInv(d, limits) && s.Collect?
    ensures var now, key := Next(d, limits, table, s), SnapshotKey(table, s.snapshot);
      if key in d.values && !CurrentIs(d, table, s.snapshot) && !HasReader(d, table, s.snapshot)
          && d.revision != INT64_MAX
      then now.revision == d.revision + 1 && now.values == d.values - {key}
      else Unchanged(d, now)
  {
    hide DataInv, SnapshotKey, DoTransact, Leaves, CurrentIs, ReadersPrefix, HasPrefix, HasReader, ReadBySome, Accepted,
        RequestOk, Condition, Effective;
    ReadersAre(d, table, s.snapshot);
    KeysAreThere(table, s.snapshot);
    var key := SnapshotKey(table, s.snapshot);
    if key in d.values {
      var t := CollectTxn(table, s.tick, s.snapshot, d.values[key].modified);
      GuardedTxn(d, limits, t);
      CollectAccepted(d, table, s);
      var now := After(d, DoTransact(d, t));
      if Leaves(d.values, t.success, now.revision, now.values) {
        DeletedLeft(d.values, key, now.revision, now.values);
      }
    }
  }

  lemma ReadersAre(d: Data, table: Bytes, id: Bytes)
    ensures ReadBySome(d, table, id) <==> HasReader(d, table, id)
  {
    hide ReadersPrefix, HasPrefix, ReadersRange, InRange;
    forall k ensures InRange(ReadersRange(table), k) <==> HasPrefix(k, ReadersPrefix(table)) {
      ReadersRangeExact(table, k);
    }
    if HasReader(d, table, id) {
      var k :| k in d.values && HasPrefix(k, ReadersPrefix(table)) && d.values[k].value == id;
      assert k in KeysIn(d.values, ReadersRange(table));
    }
  }

  lemma CollectAccepted(d: Data, table: Bytes, s: Step)
    requires s.Collect? && SnapshotKey(table, s.snapshot) in d.values && SnapshotKey(table, s.snapshot) != []
    ensures var t := CollectTxn(table, s.tick, s.snapshot, d.values[SnapshotKey(table, s.snapshot)].modified);
      RequestOk(d, t) && Condition(d, t) && Accepted(d, t, t.success, |t.success|) && Effective(d, t.success)
  {
    hide SnapshotKey;
    var key := SnapshotKey(table, s.snapshot);
    var t := CollectTxn(table, s.tick, s.snapshot, d.values[key].modified);
    ExactRangeHoldsOne(key, key);
    assert t.comparisons[0] == Compare(key, Modified, Equal, Number(d.values[key].modified));
    assert True(d.values, t.comparisons[0]);
    assert t.success[0] == DeleteOp(ExactRange(key), false);
    assert key in KeysIn(d.values, ExactRange(key));
    assert Acts(d.values, t.success[0]);
  }

  lemma DeletedLeft(was: map<Key, KeyValue>, key: Key, revision: int, now: map<Key, KeyValue>)
    requires Leaves(was, [DeleteOp(ExactRange(key), false)], revision, now)
    ensures now == was - {key}
  {
    var ops := [DeleteOp(ExactRange(key), false)];
    assert ops[0] == DeleteOp(ExactRange(key), false);
    forall k ensures !PutsKey(ops, k) && (DeletesKey(ops, k) <==> k == key) {
      ExactRangeHoldsOne(key, k);
    }
  }

  // ---- The pointer record --------------------------------------------------

  lemma TakenIsPut(b: Bytes)
    requires TakeField(b).Some?
    ensures var (f, rest) := TakeField(b).value; b == FieldBytes(f) + rest && |f| < Span(4)
  {
    hide Le, FromLe, Span;
    WritesBack(b[..4]);
    var n := FromLe(b[..4]);
    assert b == b[..4] + b[4..4 + n] + b[4 + n..];
  }

  /** A record that decodes is the encoding of its pointer, and of no other. */
  lemma PointerIsCanonical(b: Bytes)
    requires DecodePointer(b).Some?
    ensures var p := DecodePointer(b).value; PointerFits(p) && EncodePointer(p) == b
  {
    hide TakeField, FieldBytes, Span;
    var p := DecodePointer(b).value;
    var rest := b[4..];
    TakenIsPut(rest);
    var manifest := TakeField(rest).value.1;
    TakenIsPut(manifest);
    var schema := TakeField(manifest).value.1;
    TakenIsPut(schema);
    var hash := TakeField(schema).value.1;
    TakenIsPut(hash);
    var w, x, y, z := FieldBytes(p.snapshot), FieldBytes(p.manifest), FieldBytes(p.schema), FieldBytes(p.hash);
    assert b == b[..4] + rest && rest == w + (x + (y + (z + [])));
    assert POINTER_MAGIC + (w + (x + (y + (z + [])))) == POINTER_MAGIC + w + x + y + z;
  }
}
