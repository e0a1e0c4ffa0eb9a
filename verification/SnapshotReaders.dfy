/** Snapshot publication, reader registration and collection through one store adapter: the
    current snapshot and every snapshot a registered reader uses stay in the store. */
module SnapshotReaders {
  import opened RaftTypes
  import opened ByteCodec
  import opened KeyOrder
  import opened StoreModel
  import opened StoreProofs

  // ---- The pointer record --------------------------------------------------

  datatype Pointer = Pointer(snapshot: Bytes, manifest: Bytes, schema: Bytes, hash: Bytes)

  /** "KSP1" */
  const POINTER_MAGIC: Bytes := [0x4B, 0x53, 0x50, 0x31]

  function FieldBytes(f: Bytes): Bytes {
    Le(|f|, 4) + f
  }

  function EncodePointer(p: Pointer): Bytes {
    POINTER_MAGIC + FieldBytes(p.snapshot) + FieldBytes(p.manifest) + FieldBytes(p.schema) + FieldBytes(p.hash)
  }

  /** One length-prefixed field and what follows it; None if it is cut short. */
  function TakeField(b: Bytes): Option<(Bytes, Bytes)> {
    if |b| < 4 then None
    else
      var n := FromLe(b[..4]);
      if 4 + n > |b| then None else Some((b[4..4 + n], b[4 + n..]))
  }

  function DecodePointer(b: Bytes): Option<Pointer> {
    if |b| < 4 || b[..4] != POINTER_MAGIC then None
    else
      var snapshot := TakeField(b[4..]);
      if snapshot.None? then None
      else
        var manifest := TakeField(snapshot.value.1);
        if manifest.None? then None
        else
          var schema := TakeField(manifest.value.1);
          if schema.None? then None
          else
            var hash := TakeField(schema.value.1);
            if hash.None? || hash.value.1 != [] then None
            else Some(Pointer(snapshot.value.0, manifest.value.0, schema.value.0, hash.value.0))
  }

  predicate PointerFits(p: Pointer) {
    |p.snapshot| < Span(4) && |p.manifest| < Span(4) && |p.schema| < Span(4) && |p.hash| < Span(4)
  }

  lemma {:induction false} TakesWhatWasPut(f: Bytes, rest: Bytes)
    requires |f| < Span(4)
    ensures TakeField(FieldBytes(f) + rest) == Some((f, rest))
  {
    hide Le, FromLe, Span;
    ReadsBack(|f|, 4);
    var b := FieldBytes(f) + rest;
    assert b[..4] == Le(|f|, 4) && b[4..4 + |f|] == f && b[4 + |f|..] == rest;
  }

  /** A stored pointer reads back. */
  lemma {:induction false} DecodesPointer(p: Pointer)
    requires PointerFits(p)
    ensures DecodePointer(EncodePointer(p)) == Some(p) && EncodePointer(p) != []
  {
    hide FieldBytes, TakeField, Span;
    var a, b, c, d := FieldBytes(p.snapshot), FieldBytes(p.manifest), FieldBytes(p.schema), FieldBytes(p.hash);
    var e := EncodePointer(p);
    assert e == POINTER_MAGIC + (a + (b + (c + (d + []))));
    assert e[..4] == POINTER_MAGIC && e[4..] == a + (b + (c + (d + [])));
    TakesWhatWasPut(p.snapshot, b + (c + (d + [])));
    TakesWhatWasPut(p.manifest, c + (d + []));
    TakesWhatWasPut(p.schema, d + []);
    TakesWhatWasPut(p.hash, []);
  }

  // ---- Keys of one table ---------------------------------------------------

  /** "current", "writer", "snapshots/" and "readers/" under the table's prefix. */
  const CURRENT: Bytes := [0x63, 0x75, 0x72, 0x72, 0x65, 0x6E, 0x74]
  const WRITER: Bytes := [0x77, 0x72, 0x69, 0x74, 0x65, 0x72]
  const SNAPSHOTS: Bytes := [0x73, 0x6E, 0x61, 0x70, 0x73, 0x68, 0x6F, 0x74, 0x73, 0x2F]
  const READERS: Bytes := [0x72, 0x65, 0x61, 0x64, 0x65, 0x72, 0x73, 0x2F]

  function CurrentKey(table: Bytes): Key { table + CURRENT }

  function WriterKey(table: Bytes): Key { table + WRITER }

  function SnapshotKey(table: Bytes, id: Bytes): Key { table + SNAPSHOTS + id }

  function ReadersPrefix(table: Bytes): Key { table + READERS }

  function ReaderKey(table: Bytes, id: Bytes): Key { ReadersPrefix(table) + id }

  lemma {:induction false} KeysApart(table: Bytes, id: Bytes, k: Key)
    ensures CurrentKey(table) != SnapshotKey(table, id) && CurrentKey(table) != WriterKey(table)
    ensures SnapshotKey(table, id) != WriterKey(table)
    ensures HasPrefix(k, ReadersPrefix(table)) ==>
      k != CurrentKey(table) && k != SnapshotKey(table, id) && k != WriterKey(table)
  {
    var n := |table|;
    assert CurrentKey(table)[n] == 0x63 && WriterKey(table)[n] == 0x77 && SnapshotKey(table, id)[n] == 0x73;
    if HasPrefix(k, ReadersPrefix(table)) {
      assert k[n] == ReadersPrefix(table)[n] == 0x72;
    }
  }

  lemma {:induction false} SnapshotKeysApart(table: Bytes, a: Bytes, b: Bytes)
    requires SnapshotKey(table, a) == SnapshotKey(table, b)
    ensures a == b
  {
    var n := |table| + |SNAPSHOTS|;
    assert a == SnapshotKey(table, a)[n..] && b == SnapshotKey(table, b)[n..];
  }

  /** The range from a key to the key with a zero byte after it holds that key alone. */
  function ExactRange(k: Key): KeyRange {
    KeyRange(k, k + [0])
  }

  lemma {:induction false} ExactRangeHoldsOne(k: Key, j: Key)
    ensures InRange(ExactRange(k), j) <==> j == k
    ensures Less(k, k + [0])
    decreases |k|
  {
    if k == [] {
      assert k + [0] == [0];
      if j != [] { LessThanZero(j); }
    } else {
      assert (k + [0])[1..] == k[1..] + [0];
      if j != [] {
        ExactRangeHoldsOne(k[1..], j[1..]);
        assert j == [j[0]] + j[1..] && k == [k[0]] + k[1..];
      } else {
        ExactRangeHoldsOne(k[1..], []);
      }
    }
  }

  lemma {:induction false} LessThanZero(j: Key)
    requires j != []
    ensures !Less(j, [0])
  {
    assert [0][1..] == [];
  }

  function ReadersRange(table: Bytes): KeyRange {
    var end := PrefixEnd(ReadersPrefix(table));
    KeyRange(ReadersPrefix(table), if end.Some? then end.value else [])
  }

  /** The reader range holds exactly the keys under the reader prefix. */
  lemma {:induction false} ReadersRangeExact(table: Bytes, k: Key)
    ensures InRange(ReadersRange(table), k) <==> HasPrefix(k, ReadersPrefix(table))
  {
    var prefix := ReadersPrefix(table);
    PrefixRangeExact(prefix, k);
    assert prefix[|prefix| - 1] == 0x2F;
    assert PrefixEnd(prefix).Some?;
  }

  // ---- The client's steps --------------------------------------------------

  datatype Step =
    | Publish(tick: nat, expected: int, lease: int, token: nat, pointer: Pointer)
    | Register(tick: nat, lease: int, token: nat, reader: Bytes, pointer: Pointer)
    | Acquire(tick: nat, lease: int, token: nat, claim: Bytes)
    | Collect(tick: nat, snapshot: Bytes)
    | GrantLease(tick: nat, ttl: nat)
    | RenewLease(tick: nat, lease: int, token: nat)
    | RevokeLease(tick: nat, lease: int, token: nat)
    | ExpireLeases(tick: nat)

  function PublishTxn(table: Bytes, s: Step): Txn
    requires s.Publish?
  {
    Txn([Compare(CurrentKey(table), Modified, Equal, Number(s.expected)),
         Compare(WriterKey(table), LeaseId, Equal, Number(s.lease))],
        [Ownership(s.lease, s.token)], s.tick,
        [PutOp(CurrentKey(table), EncodePointer(s.pointer), 0, false),
         PutOp(SnapshotKey(table, s.pointer.snapshot), EncodePointer(s.pointer), 0, false)],
        [])
  }

  function RegisterTxn(table: Bytes, s: Step): Txn
    requires s.Register?
  {
    Txn([Compare(SnapshotKey(table, s.pointer.snapshot), Value, Equal, Text(EncodePointer(s.pointer)))],
        [Ownership(s.lease, s.token)], s.tick,
        [PutOp(ReaderKey(table, s.reader), s.pointer.snapshot, s.lease, false)],
        [])
  }

  function AcquireTxn(table: Bytes, s: Step): Txn
    requires s.Acquire?
  {
    Txn([Compare(WriterKey(table), Version, Equal, Number(0))],
        [Ownership(s.lease, s.token)], s.tick,
        [PutOp(WriterKey(table), s.claim, s.lease, false)],
        [])
  }

  function CollectTxn(table: Bytes, tick: nat, id: Bytes, modified: int): Txn {
    Txn([Compare(SnapshotKey(table, id), Modified, Equal, Number(modified))], [], tick,
        [DeleteOp(ExactRange(SnapshotKey(table, id)), false)], [])
  }

  predicate CurrentIs(d: Data, table: Bytes, id: Bytes) {
    CurrentKey(table) in d.values &&
    var p := DecodePointer(d.values[CurrentKey(table)].value);
    p.Some? && p.value.snapshot == id
  }

  predicate ReadBySome(d: Data, table: Bytes, id: Bytes) {
    exists k :: k in KeysIn(d.values, ReadersRange(table)) && d.values[k].value == id
  }

  function After(d: Data, r: Outcome): Data {
    if r.Done? then r.data else d
  }

  /** A step that the client or the store refuses changes nothing. */
  function Next(d: Data, limits: Limits, table: Bytes, s: Step): Data {
    match s
    case Publish(_, _, _, _, pointer) =>
      if !PointerFits(pointer) then d else After(d, DoTransact(d, PublishTxn(table, s)))
    case Register(_, _, _, _, pointer) =>
      if !PointerFits(pointer) then d else After(d, DoTransact(d, RegisterTxn(table, s)))
    case Acquire(_, _, _, _) => After(d, DoTransact(d, AcquireTxn(table, s)))
    case Collect(tick, id) =>
      if CurrentIs(d, table, id) || ReadBySome(d, table, id) || SnapshotKey(table, id) !in d.values then d
      else After(d, DoTransact(d, CollectTxn(table, tick, id, d.values[SnapshotKey(table, id)].modified)))
    case GrantLease(tick, ttl) => After(d, DoGrant(d, limits, tick, ttl, 0))
    case RenewLease(tick, lease, token) => After(d, DoKeepAlive(d, tick, lease, token))
    case RevokeLease(tick, lease, token) => After(d, DoRevoke(d, tick, lease, token))
    case ExpireLeases(tick) => After(d, DoExpire(d, tick))
  }

  function Reached(limits: Limits, table: Bytes, steps: seq<Step>): Data {
    if steps == [] then EMPTY
    else Next(Reached(limits, table, steps[..|steps| - 1]), limits, table, steps[|steps| - 1])
  }

  // ---- Protection ----------------------------------------------------------

  /** The record of snapshot `id` exists and cannot expire. */
  predicate Kept(values: map<Key, KeyValue>, table: Bytes, id: Bytes) {
    SnapshotKey(table, id) in values
  }

  predicate CurrentProtected(values: map<Key, KeyValue>, table: Bytes) {
    CurrentKey(table) in values ==>
      && values[CurrentKey(table)].lease == 0
      && var p := DecodePointer(values[CurrentKey(table)].value);
         p.Some? && Kept(values, table, p.value.snapshot)
  }

  predicate ReadersProtected(values: map<Key, KeyValue>, table: Bytes) {
    forall k :: k in values && HasPrefix(k, ReadersPrefix(table)) ==> Kept(values, table, values[k].value)
  }

  /** Only readers and writers hold leases. */
  ghost predicate SnapshotsPermanent(values: map<Key, KeyValue>, table: Bytes) {
    forall id: Bytes :: SnapshotKey(table, id) in values ==> values[SnapshotKey(table, id)].lease == 0
  }

  ghost predicate Protected(values: map<Key, KeyValue>, table: Bytes) {
    CurrentProtected(values, table) && ReadersProtected(values, table) && SnapshotsPermanent(values, table)
  }

  // ---- Each step keeps it --------------------------------------------------

  /** What a transaction without writes leaves. */
  lemma {:induction false} NoWrites(values: map<Key, KeyValue>, revision: int, after: map<Key, KeyValue>)
    requires WrittenAtOnce(values, [], revision, after)
    ensures after == values
  {
    assert forall k :: !PutsKey([], k) && !DeletesKey([], k);
  }

  lemma {:induction false} OnePut(values: map<Key, KeyValue>, op: Op, revision: int, after: map<Key, KeyValue>)
    requires op.PutOp? && WrittenAtOnce(values, [op], revision, after)
    ensures after == values[op.key := PutValue(values, op, revision)]
  {
    assert [op][0] == op;
    assert forall k :: !DeletesKey([op], k) && (PutsKey([op], k) <==> k == op.key);
  }

  lemma {:induction false} TwoPuts(values: map<Key, KeyValue>, a: Op, b: Op, revision: int, after: map<Key, KeyValue>)
    requires a.PutOp? && b.PutOp? && a.key != b.key && WrittenAtOnce(values, [a, b], revision, after)
    ensures after == values[a.key := PutValue(values, a, revision)][b.key := PutValue(values, b, revision)]
  {
    var ops := [a, b];
    assert ops[0] == a && ops[1] == b;
    assert forall k :: !DeletesKey(ops, k) && (PutsKey(ops, k) <==> k == a.key || k == b.key);
  }

  lemma {:induction false} OneDelete(values: map<Key, KeyValue>, k: Key, revision: int, after: map<Key, KeyValue>)
    requires WrittenAtOnce(values, [DeleteOp(ExactRange(k), false)], revision, after)
    ensures after == values - {k}
  {
    var ops := [DeleteOp(ExactRange(k), false)];
    assert ops[0] == DeleteOp(ExactRange(k), false);
    forall j ensures !PutsKey(ops, j) && (DeletesKey(ops, j) <==> j == k) {
      ExactRangeHoldsOne(k, j);
    }
  }

  lemma {:induction false} PublishProtects(values: map<Key, KeyValue>, table: Bytes, p: Pointer, revision: int)
    requires Protected(values, table) && PointerFits(p)
    ensures var a := PutOp(CurrentKey(table), EncodePointer(p), 0, false);
      var b := PutOp(SnapshotKey(table, p.snapshot), EncodePointer(p), 0, false);
      Protected(values[a.key := PutValue(values, a, revision)][b.key := PutValue(values, b, revision)], table)
  {
    hide EncodePointer, DecodePointer, CurrentKey, SnapshotKey, ReadersPrefix, PointerFits;
    DecodesPointer(p);
    forall id: Bytes, k: Key
      ensures CurrentKey(table) != SnapshotKey(table, id)
      ensures HasPrefix(k, ReadersPrefix(table)) ==> k != CurrentKey(table) && k != SnapshotKey(table, id)
    {
      KeysApart(table, id, k);
    }
  }

  lemma {:induction false} OtherPutProtects(values: map<Key, KeyValue>, table: Bytes, v: KeyValue)
    requires Protected(values, table) && v.key != CurrentKey(table)
    requires forall id: Bytes :: v.key != SnapshotKey(table, id)
    requires HasPrefix(v.key, ReadersPrefix(table)) ==> Kept(values, table, v.value)
    ensures Protected(values[v.key := v], table)
  {
    hide DecodePointer, CurrentKey, SnapshotKey, ReadersPrefix;
  }

  lemma {:induction false} DeleteProtects(values: map<Key, KeyValue>, table: Bytes, id: Bytes)
    requires Protected(values, table)
    requires CurrentKey(table) in values ==>
      var p := DecodePointer(values[CurrentKey(table)].value); p.Some? ==> p.value.snapshot != id
    requires forall k :: k in values && HasPrefix(k, ReadersPrefix(table)) ==> values[k].value != id
    ensures Protected(values - {SnapshotKey(table, id)}, table)
  {
    hide DecodePointer, CurrentKey, SnapshotKey, ReadersPrefix;
    forall other: Bytes | other != id ensures SnapshotKey(table, other) != SnapshotKey(table, id) {
      if SnapshotKey(table, other) == SnapshotKey(table, id) { SnapshotKeysApart(table, other, id); }
    }
  }

  /** Expiry and revocation take only leased keys. */
  lemma {:induction false} CleanupProtects(values: map<Key, KeyValue>, table: Bytes, after: map<Key, KeyValue>,
                                           ids: set<int>)
    requires Protected(values, table) && 0 !in ids
    requires forall k :: k in after <==> k in values && values[k].lease !in ids
    requires forall k :: k in after ==> after[k] == values[k]
    ensures Protected(after, table)
  {
    hide DecodePointer, CurrentKey, SnapshotKey, ReadersPrefix;
  }

  lemma {:induction false} TransactionWrites(d: Data, limits: Limits, t: Txn)
    requires DataInv(d, limits) && DoTransact(d, t).Done? && t.failure == []
    ensures AllHold(d.values, t.comparisons).Some?
    ensures var r := DoTransact(d, t);
      && DataInv(r.data, limits)
      && (r.data.values == d.values
          || (AllHold(d.values, t.comparisons) == Some(true)
              && WrittenAtOnce(d.values, t.success, r.data.revision, r.data.values)))
  {
    hide DataInv, WrittenAtOnce, AllHold, PlanAll, ExecuteAll;
    TransactionRefines(d, limits, t);
    var r := DoTransact(d, t);
    if !Succeeds(d, t, AllHold(d.values, t.comparisons).value) {
      NoWrites(d.values, r.data.revision, r.data.values);
    }
  }

  lemma {:induction false} RegisteredSnapshotExists(d: Data, table: Bytes, s: Step)
    requires s.Register? && AllHold(d.values, RegisterTxn(table, s).comparisons) == Some(true)
    ensures Kept(d.values, table, s.pointer.snapshot)
  {
    hide EncodePointer, SnapshotKey;
    var cs := RegisterTxn(table, s).comparisons;
    assert cs[..0] == [] && cs[..|cs| - 1] == [];
    PointerNotEmpty(s.pointer);
  }

  lemma {:induction false} PointerNotEmpty(p: Pointer)
    ensures EncodePointer(p) != []
  {
    hide FieldBytes;
    assert EncodePointer(p)[0] == POINTER_MAGIC[0];
  }

  lemma {:induction false} RegisterKeeps(d: Data, limits: Limits, table: Bytes, s: Step)
    requires DataInv(d, limits) && Protected(d.values, table) && s.Register?
    ensures DataInv(Next(d, limits, table, s), limits) && Protected(Next(d, limits, table, s).values, table)
  {
    hide DataInv, Protected, WrittenAtOnce, DoTransact, EncodePointer, SnapshotKey, CurrentKey, Kept, AllHold;
    var t := RegisterTxn(table, s);
    if PointerFits(s.pointer) && DoTransact(d, t).Done? {
      TransactionWrites(d, limits, t);
      var after := DoTransact(d, t).data;
      if after.values != d.values {
        RegisteredSnapshotExists(d, table, s);
        OnePut(d.values, t.success[0], after.revision, after.values);
        forall id: Bytes ensures t.success[0].key != SnapshotKey(table, id) && t.success[0].key != CurrentKey(table) {
          KeysApart(table, id, t.success[0].key);
        }
        OtherPutProtects(d.values, table, PutValue(d.values, t.success[0], after.revision));
      }
    }
  }

  lemma {:induction false} AcquireKeeps(d: Data, limits: Limits, table: Bytes, s: Step)
    requires DataInv(d, limits) && Protected(d.values, table) && s.Acquire?
    ensures DataInv(Next(d, limits, table, s), limits) && Protected(Next(d, limits, table, s).values, table)
  {
    hide DataInv, Protected, WrittenAtOnce, DoTransact, SnapshotKey, CurrentKey, Kept, AllHold, WriterKey;
    var t := AcquireTxn(table, s);
    if DoTransact(d, t).Done? {
      TransactionWrites(d, limits, t);
      var after := DoTransact(d, t).data;
      if after.values != d.values {
        OnePut(d.values, t.success[0], after.revision, after.values);
        KeysApart(table, [], WriterKey(table));
        forall id: Bytes ensures WriterKey(table) != SnapshotKey(table, id) {
          KeysApart(table, id, WriterKey(table));
        }
        OtherPutProtects(d.values, table, PutValue(d.values, t.success[0], after.revision));
      }
    }
  }

  lemma {:induction false} PublishKeeps(d: Data, limits: Limits, table: Bytes, s: Step)
    requires DataInv(d, limits) && Protected(d.values, table) && s.Publish?
    ensures DataInv(Next(d, limits, table, s), limits) && Protected(Next(d, limits, table, s).values, table)
  {
    hide DataInv, Protected, WrittenAtOnce, DoTransact, EncodePointer, SnapshotKey, CurrentKey, AllHold;
    var t := PublishTxn(table, s);
    if PointerFits(s.pointer) && DoTransact(d, t).Done? {
      TransactionWrites(d, limits, t);
      var after := DoTransact(d, t).data;
      if after.values != d.values {
        KeysApart(table, s.pointer.snapshot, []);
        assert t.success == [t.success[0], t.success[1]];
        TwoPuts(d.values, t.success[0], t.success[1], after.revision, after.values);
        PublishProtects(d.values, table, s.pointer, after.revision);
      }
    }
  }

  lemma {:induction false} CollectKeeps(d: Data, limits: Limits, table: Bytes, s: Step)
    requires DataInv(d, limits) && Protected(d.values, table) && s.Collect?
    ensures DataInv(Next(d, limits, table, s), limits) && Protected(Next(d, limits, table, s).values, table)
  {
    hide DataInv, Protected, WrittenAtOnce, DoTransact, SnapshotKey, CurrentKey, AllHold, ReadersRange, HasPrefix,
        ReadersPrefix;
    var id := s.snapshot;
    if !CurrentIs(d, table, id) && !ReadBySome(d, table, id) && SnapshotKey(table, id) in d.values {
      var t := CollectTxn(table, s.tick, id, d.values[SnapshotKey(table, id)].modified);
      if DoTransact(d, t).Done? {
        TransactionWrites(d, limits, t);
        var after := DoTransact(d, t).data;
        if after.values != d.values {
          OneDelete(d.values, SnapshotKey(table, id), after.revision, after.values);
          forall k | k in d.values && HasPrefix(k, ReadersPrefix(table)) ensures d.values[k].value != id {
            ReadersRangeExact(table, k);
            assert k in KeysIn(d.values, ReadersRange(table));
          }
          DeleteProtects(d.values, table, id);
        }
      }
    }
  }

  lemma {:induction false} LeaseStepKeeps(d: Data, limits: Limits, table: Bytes, s: Step)
    requires DataInv(d, limits) && Protected(d.values, table)
    requires s.GrantLease? || s.RenewLease? || s.RevokeLease? || s.ExpireLeases?
    ensures DataInv(Next(d, limits, table, s), limits) && Protected(Next(d, limits, table, s).values, table)
  {
    NoLeaseZero(d, limits);
    hide Protected, RemoveLeases, DataInv;
    match s {
      case GrantLease(tick, ttl) => GrantKeeps(d, limits, tick, ttl, 0);
      case RenewLease(tick, lease, token) => KeepAliveKeeps(d, limits, tick, lease, token);
      case RevokeLease(tick, lease, _) =>
        TickKeeps(d, limits, tick);
        if d.tick <= tick && lease in d.leases { CleanupKeeps(d, limits, table, {lease}, tick); }
      case ExpireLeases(tick) =>
        if d.tick <= tick { CleanupKeeps(d, limits, table, ExpiredIds(d.leases, tick), tick); }
    }
  }

  lemma {:induction false} CleanupKeeps(d: Data, limits: Limits, table: Bytes, ids: set<int>, tick: nat)
    requires DataInv(d, limits) && Protected(d.values, table) && ids <= d.leases.Keys && d.tick <= tick
    requires 0 !in d.leases
    ensures var r := RemoveLeases(d, ids, tick);
      r.Done? ==> DataInv(r.data, limits) && Protected(r.data.values, table)
  {
    hide Protected, RemoveLeases, DataInv;
    CleanupExact(d, limits, ids, tick);
    var r := RemoveLeases(d, ids, tick);
    if r.Done? { CleanupProtects(d.values, table, r.data.values, ids); }
  }

  lemma {:induction false} StepKeeps(d: Data, limits: Limits, table: Bytes, s: Step)
    requires DataInv(d, limits) && Protected(d.values, table)
    ensures DataInv(Next(d, limits, table, s), limits) && Protected(Next(d, limits, table, s).values, table)
  {
    hide DataInv, Protected, Next;
    match s {
      case Publish(_, _, _, _, _) => PublishKeeps(d, limits, table, s);
      case Register(_, _, _, _, _) => RegisterKeeps(d, limits, table, s);
      case Acquire(_, _, _, _) => AcquireKeeps(d, limits, table, s);
      case Collect(_, _) => CollectKeeps(d, limits, table, s);
      case _ => LeaseStepKeeps(d, limits, table, s);
    }
  }

  /** In every run of publications, registrations, collections and lease events, the current
      pointer's snapshot record and the record of every registered reader's snapshot exist. */
  lemma {:induction false} ReadersStayProtected(limits: Limits, table: Bytes, steps: seq<Step>)
    ensures DataInv(Reached(limits, table, steps), limits)
    ensures var values := Reached(limits, table, steps).values;
      && (forall k :: k in values && HasPrefix(k, ReadersPrefix(table)) ==>
            SnapshotKey(table, values[k].value) in values)
      && (CurrentKey(table) in values ==>
            var p := DecodePointer(values[CurrentKey(table)].value);
            p.Some? && SnapshotKey(table, p.value.snapshot) in values)
  {
    ProtectedAlways(limits, table, steps);
    hide DecodePointer, CurrentKey, SnapshotKey, ReadersPrefix, DataInv, Reached;
  }

  lemma {:induction false} ProtectedAlways(limits: Limits, table: Bytes, steps: seq<Step>)
    ensures DataInv(Reached(limits, table, steps), limits) && Protected(Reached(limits, table, steps).values, table)
    decreases |steps|
  {
    hide Next, DecodePointer, CurrentKey, SnapshotKey, ReadersPrefix;
    if steps != [] {
      var n := |steps| - 1;
      ProtectedAlways(limits, table, steps[..n]);
      hide Protected, DataInv;
      StepKeeps(Reached(limits, table, steps[..n]), limits, table, steps[n]);
    }
  }
}
