/** Every command keeps the store's invariant; the two lease indexes always agree, so the
    code's `logic_error` branches cannot be reached. */
module StoreProofs {
  import opened RaftTypes
  import opened ByteCodec
  import opened KeyOrder
  import opened StoreModel

  // ---- The invariant -------------------------------------------------------

  predicate ValueOk(k: Key, v: KeyValue, revision: int) {
    && v.key == k && k != [] && 0 < v.version <= INT64_MAX
    && 0 < v.created <= v.modified <= revision && 0 <= v.lease
  }

  predicate ValuesOk(values: map<Key, KeyValue>, revision: int) {
    forall k :: k in values ==> ValueOk(k, values[k], revision)
  }

  /** A key carries lease `l` if and only if it is attached to `l`. */
  predicate Agree(values: map<Key, KeyValue>, leases: map<int, Lease>) {
    && (forall k :: k in values && values[k].lease != 0 ==>
          values[k].lease in leases && k in leases[values[k].lease].keys)
    && (forall id, k :: id in leases && k in leases[id].keys ==> k in values && values[k].lease == id)
  }

  predicate LeasesOk(d: Data, limits: Limits) {
    && (forall id :: id in d.leases ==>
          && 0 < id <= MAX_LEASE_ID && id < d.nextLease
          && 0 < d.leases[id].token < d.nextToken && 0 < d.leases[id].ttl)
    && |d.leases| <= limits.maxLeases
  }

  predicate DataInv(d: Data, limits: Limits) {
    && 0 <= d.revision && 0 < d.nextLease && 0 < d.nextToken
    && ValuesOk(d.values, d.revision) && Agree(d.values, d.leases) && LeasesOk(d, limits)
  }

  /** The same leases up to the attached keys. */
  predicate SameLeases(a: map<int, Lease>, b: map<int, Lease>) {
    a.Keys == b.Keys && forall id :: id in a ==> b[id] == a[id].(keys := b[id].keys)
  }

  lemma SameLeasesTransitive(a: map<int, Lease>, b: map<int, Lease>, c: map<int, Lease>)
    requires SameLeases(a, b) && SameLeases(b, c)
    ensures SameLeases(a, c)
  {
  }

  // ---- The two indexes -----------------------------------------------------

  lemma DetachAgrees(values: map<Key, KeyValue>, leases: map<int, Lease>, key: Key)
    requires Agree(values, leases) && key in values && values[key].key == key && 0 !in leases
    ensures var r := Detach(leases, values[key]);
      r.Some? && Agree(values - {key}, r.value) && SameLeases(leases, r.value)
  {
    var v := values[key];
    var r := Detach(leases, v).value;
    if v.lease != 0 {
      assert r.Keys == leases.Keys;
    }
  }

  lemma AttachAgrees(values: map<Key, KeyValue>, leases: map<int, Lease>, v: KeyValue)
    requires Agree(values, leases) && v.key !in values && v.lease in leases && v.lease != 0
    ensures var r := Attach(leases, v.lease, v.key);
      r.Some? && Agree(values[v.key := v], r.value) && SameLeases(leases, r.value)
  {
    var r := Attach(leases, v.lease, v.key).value;
    assert r.Keys == leases.Keys;
  }

  lemma WithoutThenWith(values: map<Key, KeyValue>, v: KeyValue)
    ensures (values - {v.key})[v.key := v] == values[v.key := v]
  {
  }

  lemma StoreUnleased(values: map<Key, KeyValue>, leases: map<int, Lease>, v: KeyValue)
    requires Agree(values, leases) && v.key !in values && v.lease == 0 && 0 !in leases
    ensures Agree(values[v.key := v], leases)
  {
  }

  /** Replacing a value moves its key from the old lease to the new one. */
  lemma RelinkAgrees(values: map<Key, KeyValue>, leases: map<int, Lease>, v: KeyValue)
    requires Agree(values, leases) && 0 !in leases && (v.lease == 0 || v.lease in leases)
    requires v.key in values ==> values[v.key].key == v.key
    ensures var r := Relink(leases, Lookup(values, v.key), v.key, v.lease);
      r.Some? && Agree(values[v.key := v], r.value) && SameLeases(leases, r.value)
  {
    hide Agree, SameLeases, Detach, Attach;
    var bare := values - {v.key};
    var freed := leases;
    if v.key in values {
      DetachAgrees(values, leases, v.key);
      freed := Detach(leases, values[v.key]).value;
    } else {
      assert bare == values;
      SameReflexive(leases);
    }
    WithoutThenWith(values, v);
    SameKeys(leases, freed);
    if v.lease == 0 {
      StoreUnleased(bare, freed, v);
    } else {
      AttachAgrees(bare, freed, v);
      SameLeasesTransitive(leases, freed, Attach(freed, v.lease, v.key).value);
    }
  }

  lemma SameReflexive(leases: map<int, Lease>)
    ensures SameLeases(leases, leases)
  {
  }

  lemma SameKeys(a: map<int, Lease>, b: map<int, Lease>)
    requires SameLeases(a, b)
    ensures a.Keys == b.Keys
  {
  }

  lemma {:induction false} DetachAllAgrees(values: map<Key, KeyValue>, leases: map<int, Lease>, keys: seq<Key>)
    requires Agree(values, leases) && 0 !in leases && Ascending(keys)
    requires forall k :: k in keys ==> k in values && values[k].key == k
    ensures var r := DetachAll(leases, Listed(values, keys));
      r.Some? && Agree(values - KeySet(keys), r.value) && SameLeases(leases, r.value)
    decreases |keys|
  {
    hide Agree, SameLeases, Detach;
    if keys == [] {
      assert values - KeySet(keys) == values;
      SameReflexive(leases);
    } else {
      var n := |keys| - 1;
      var front, last := keys[..n], keys[n];
      FrontOf(keys);
      DetachAllAgrees(values, leases, front);
      assert Listed(values, keys)[..n] == Listed(values, front);
      var left := values - KeySet(front);
      var freed := DetachAll(leases, Listed(values, front)).value;
      SameKeys(leases, freed);
      DetachAgrees(left, freed, last);
      assert left - {last} == values - KeySet(keys);
      SameLeasesTransitive(leases, freed, Detach(freed, values[last]).value);
    }
  }

  function KeySet(keys: seq<Key>): set<Key> {
    set k | k in keys
  }

  lemma FrontOf(keys: seq<Key>)
    requires Ascending(keys) && keys != []
    ensures var n := |keys| - 1;
      && Ascending(keys[..n]) && keys[n] !in keys[..n]
      && KeySet(keys) == KeySet(keys[..n]) + {keys[n]}
      && forall k :: k in keys[..n] ==> k in keys
  {
    LastIsNew(keys);
  }

  lemma LastIsNew(keys: seq<Key>)
    requires Ascending(keys) && keys != []
    ensures keys[|keys| - 1] !in keys[..|keys| - 1]
  {
    LessIrreflexive(keys[|keys| - 1]);
  }

  // ---- Single-key commands -------------------------------------------------

  lemma NoLeaseZero(d: Data, limits: Limits)
    requires DataInv(d, limits)
    ensures 0 !in d.leases
  {
  }

  lemma ValuesRise(values: map<Key, KeyValue>, revision: int, revision': int)
    requires ValuesOk(values, revision) && revision <= revision'
    ensures ValuesOk(values, revision')
  {
  }

  lemma LeasesKept(d: Data, d': Data, limits: Limits)
    requires LeasesOk(d, limits) && SameLeases(d.leases, d'.leases)
    requires d.nextLease == d'.nextLease && d.nextToken == d'.nextToken
    ensures LeasesOk(d', limits)
  {
    assert |d.leases| == |d.leases.Keys| == |d'.leases.Keys| == |d'.leases|;
  }

  lemma WriteKeeps(d: Data, limits: Limits, key: Key, value: Bytes)
    requires DataInv(d, limits) && key != []
    ensures var r := WriteOne(d, key, value);
      && (r.Refused? ==> !r.error.Corrupt?)
      && (r.Done? ==> DataInv(r.data, limits))
      && (r.Done? ==> r.data.revision == d.revision + 1 && r.events.Some? && r.events.value != [])
  {
    hide Agree, SameLeases, LeasesOk, Relink;
    NoLeaseZero(d, limits);
    var before := Lookup(d.values, key);
    var current := NextValue(before, key, value, 0, d.revision + 1);
    RelinkAgrees(d.values, d.leases, current);
    if WriteOne(d, key, value).Done? {
      ValuesRise(d.values, d.revision, d.revision + 1);
      LeasesKept(d, WriteOne(d, key, value).data, limits);
    }
  }

  lemma EraseKeeps(d: Data, limits: Limits, key: Key)
    requires DataInv(d, limits)
    ensures var r := DoErase(d, key);
      && (r.Refused? ==> !r.error.Corrupt?)
      && (r.Done? ==> DataInv(r.data, limits))
      && (r.Done? && r.events.Some? ==> r.data.revision == d.revision + 1)
      && (r.Done? && r.events.None? ==> r.data.revision == d.revision)
  {
    hide Agree, SameLeases, LeasesOk, Detach;
    NoLeaseZero(d, limits);
    if key in d.values && key != [] {
      DetachAgrees(d.values, d.leases, key);
      if DoErase(d, key).Done? {
        ValuesRise(d.values, d.revision, d.revision + 1);
        LeasesKept(d, DoErase(d, key).data, limits);
      }
    }
  }

  // ---- Transactions --------------------------------------------------------

  /** What an accepted plan says about every operation. */
  lemma {:induction false} PlannedOps(values: map<Key, KeyValue>, verified: set<int>, ops: seq<Op>)
    requires PlanAll(values, verified, ops).Good?
    ensures forall i :: 0 <= i < |ops| && ops[i].PutOp? ==>
      && ops[i].key != [] && 0 <= ops[i].lease && (ops[i].lease == 0 || ops[i].lease in verified)
      && (ops[i].key in values ==> values[ops[i].key].version != INT64_MAX)
    ensures forall i :: 0 <= i < |ops| && ops[i].DeleteOp? ==> RangeOk(ops[i].range)
    ensures forall i :: 0 <= i < |ops| && ops[i].PutOp? ==> ops[i].key in PlanAll(values, verified, ops).plan.puts
    ensures forall k :: k in PlanAll(values, verified, ops).plan.puts ==>
              exists i :: 0 <= i < |ops| && ops[i].PutOp? && ops[i].key == k
    ensures forall i :: 0 <= i < |ops| && ops[i].DeleteOp? ==>
        ops[i].range in PlanAll(values, verified, ops).plan.deletes
    ensures forall r :: r in PlanAll(values, verified, ops).plan.deletes ==>
              exists i :: 0 <= i < |ops| && ops[i].DeleteOp? && ops[i].range == r
  {
    if ops != [] {
      var n := |ops| - 1;
      var front, last := ops[..n], ops[n];
      PlannedOps(values, verified, front);
      assert forall i :: 0 <= i < n ==> ops[i] == front[i];
      var p, q := PlanAll(values, verified, front).plan, PlanAll(values, verified, ops).plan;
      assert q == PlanNext(values, p, last) && PlanError(values, verified, p, last).None?;
      forall k | k in q.puts ensures exists i :: 0 <= i < |ops| && ops[i].PutOp? && ops[i].key == k {
        if k in p.puts {
          var i :| 0 <= i < |front| && front[i].PutOp? && front[i].key == k;
          assert ops[i].PutOp? && ops[i].key == k;
        } else {
          assert ops[n].PutOp? && ops[n].key == k;
        }
      }
      forall r | r in q.deletes ensures exists i :: 0 <= i < |ops| && ops[i].DeleteOp? && ops[i].range == r {
        if r in p.deletes {
          var i :| 0 <= i < |front| && front[i].DeleteOp? && front[i].range == r;
          assert ops[i].DeleteOp? && ops[i].range == r;
        } else {
          assert ops[n].DeleteOp? && ops[n].range == r;
        }
      }
    }
  }

  /** Values in the middle of a transaction: those of keys not written yet keep their version. */
  predicate WorkOk(w: Work, leases: map<int, Lease>, revision: int) {
    ValuesOk(w.values, revision) && Agree(w.values, w.leases) && SameLeases(leases, w.leases)
  }

  lemma ExecutePutOk(w: Work, leases: map<int, Lease>, revision: int, op: Op)
    requires WorkOk(w, leases, revision) && op.PutOp? && op.key != [] && 0 <= op.lease && 0 < revision && 0 !in leases
    requires op.lease == 0 || op.lease in leases
    requires op.key in w.values ==> w.values[op.key].version != INT64_MAX
    ensures Execute(w, revision, op).Some? && WorkOk(Execute(w, revision, op).value, leases, revision)
  {
    hide Agree, SameLeases, Relink;
    var before := Lookup(w.values, op.key);
    var current := NextValue(before, op.key, op.value, op.lease, revision);
    SameKeys(leases, w.leases);
    RelinkAgrees(w.values, w.leases, current);
    SameLeasesTransitive(leases, w.leases, Relink(w.leases, before, op.key, op.lease).value);
  }

  lemma ExecuteDeleteOk(w: Work, leases: map<int, Lease>, revision: int, op: Op)
    requires WorkOk(w, leases, revision) && op.DeleteOp? && 0 !in leases
    ensures Execute(w, revision, op).Some? && WorkOk(Execute(w, revision, op).value, leases, revision)
  {
    hide Agree, SameLeases, DetachAll;
    var keys := KeysIn(w.values, op.range);
    var listed := Sorted(keys);
    SameKeys(leases, w.leases);
    DetachAllAgrees(w.values, w.leases, listed);
    assert KeySet(listed) == keys;
    SameLeasesTransitive(leases, w.leases, DetachAll(w.leases, Listed(w.values, listed)).value);
  }

  // ---- The one-pass specification ------------------------------------------

  predicate PutsKey(ops: seq<Op>, k: Key) {
    exists i :: 0 <= i < |ops| && ops[i].PutOp? && ops[i].key == k
  }

  predicate DeletesKey(ops: seq<Op>, k: Key) {
    exists i :: 0 <= i < |ops| && ops[i].DeleteOp? && InRange(ops[i].range, k)
  }

  /** What a put stores, seen from the state before the transaction. */
  function PutValue(values: map<Key, KeyValue>, op: Op, revision: int): KeyValue
    requires op.PutOp?
  {
    NextValue(Lookup(values, op.key), op.key, op.value, op.lease, revision)
  }

  /** All writes happen at once: the final values in terms of the values before, whatever the
      order of the operations. */
  ghost predicate WrittenAtOnce(values: map<Key, KeyValue>, ops: seq<Op>, revision: int, after: map<Key, KeyValue>) {
    && (forall i :: 0 <= i < |ops| && ops[i].PutOp? ==>
          ops[i].key in after && after[ops[i].key] == PutValue(values, ops[i], revision))
    && (forall k :: k in after && !PutsKey(ops, k) ==>
          k in values && after[k] == values[k] && !DeletesKey(ops, k))
    && (forall k :: k in values && !PutsKey(ops, k) && !DeletesKey(ops, k) ==> k in after)
  }

  /** It is a specification: there is only one such result. */
  lemma WrittenAtOnceIsUnique(values: map<Key, KeyValue>, ops: seq<Op>, revision: int,
                              a: map<Key, KeyValue>, b: map<Key, KeyValue>)
    requires WrittenAtOnce(values, ops, revision, a) && WrittenAtOnce(values, ops, revision, b)
    ensures a == b
  {
    OneWayIncluded(values, ops, revision, a, b);
    OneWayIncluded(values, ops, revision, b, a);
  }

  lemma OneWayIncluded(values: map<Key, KeyValue>, ops: seq<Op>, revision: int,
                       a: map<Key, KeyValue>, b: map<Key, KeyValue>)
    requires WrittenAtOnce(values, ops, revision, a) && WrittenAtOnce(values, ops, revision, b)
    ensures forall k :: k in a ==> k in b && b[k] == a[k]
  {
    forall k | k in a ensures k in b && b[k] == a[k] {
      if PutsKey(ops, k) {
        var i :| 0 <= i < |ops| && ops[i].PutOp? && ops[i].key == k;
        assert a[ops[i].key] == PutValue(values, ops[i], revision);
      }
    }
  }

  /** Nothing has touched the key so far: it is as it was. */
  lemma UntouchedKey(values: map<Key, KeyValue>, ops: seq<Op>, revision: int, after: map<Key, KeyValue>, k: Key)
    requires WrittenAtOnce(values, ops, revision, after) && !PutsKey(ops, k) && !DeletesKey(ops, k)
    ensures Lookup(after, k) == Lookup(values, k)
  {
  }

  lemma PutsSplit(front: seq<Op>, op: Op, k: Key)
    ensures PutsKey(front + [op], k) <==> PutsKey(front, k) || (op.PutOp? && op.key == k)
    ensures DeletesKey(front + [op], k) <==> DeletesKey(front, k) || (op.DeleteOp? && InRange(op.range, k))
  {
    var ops := front + [op];
    assert ops[|front|] == op;
    assert forall i :: 0 <= i < |front| ==> ops[i] == front[i];
  }

  /** The plan keeps the writes apart. */
  lemma PlanSeparates(values: map<Key, KeyValue>, verified: set<int>, front: seq<Op>, op: Op)
    requires PlanAll(values, verified, front).Good?
    requires PlanError(values, verified, PlanAll(values, verified, front).plan, op).None?
    ensures op.PutOp? ==> !PutsKey(front, op.key) && !DeletesKey(front, op.key)
    ensures op.DeleteOp? ==> forall k :: InRange(op.range, k) ==> !PutsKey(front, k) && !DeletesKey(front, k)
  {
    PlannedOps(values, verified, front);
    var p := PlanAll(values, verified, front).plan;
    if op.DeleteOp? {
      forall k | InRange(op.range, k) ensures !PutsKey(front, k) && !DeletesKey(front, k) {
        if i: int :| 0 <= i < |front| && front[i].DeleteOp? && InRange(front[i].range, k) {
          OverlapIff(front[i].range, op.range);
          assert false;
        }
      }
    }
  }

  lemma PutAtOnce(values: map<Key, KeyValue>, front: seq<Op>, op: Op, revision: int, w: Work)
    requires WrittenAtOnce(values, front, revision, w.values)
    requires op.PutOp? && !PutsKey(front, op.key) && !DeletesKey(front, op.key)
    requires Execute(w, revision, op).Some?
    ensures WrittenAtOnce(values, front + [op], revision, Execute(w, revision, op).value.values)
  {
    hide Relink, PutsKey, DeletesKey;
    var ops, after := front + [op], Execute(w, revision, op).value.values;
    UntouchedKey(values, front, revision, w.values, op.key);
    forall k ensures PutsKey(ops, k) <==> PutsKey(front, k) || op.key == k {
      PutsSplit(front, op, k);
    }
    forall k ensures DeletesKey(ops, k) <==> DeletesKey(front, k) {
      PutsSplit(front, op, k);
    }
    forall i | 0 <= i < |ops| && ops[i].PutOp?
      ensures ops[i].key in after && after[ops[i].key] == PutValue(values, ops[i], revision)
    {
      if i < |front| {
        assert ops[i] == front[i];
        PutsIts(front, i);
      }
    }
  }

  lemma DeleteSeesOldKeys(values: map<Key, KeyValue>, front: seq<Op>, range: KeyRange, revision: int,
                          now: map<Key, KeyValue>)
    requires WrittenAtOnce(values, front, revision, now)
    requires forall k :: InRange(range, k) ==> !PutsKey(front, k) && !DeletesKey(front, k)
    ensures KeysIn(now, range) == KeysIn(values, range)
  {
    hide InRange, PutsKey, DeletesKey, WrittenAtOnce;
    forall k | InRange(range, k) ensures k in now <==> k in values {
      UntouchedKey(values, front, revision, now, k);
    }
  }

  lemma DeleteAtOnce(values: map<Key, KeyValue>, front: seq<Op>, op: Op, revision: int, w: Work)
    requires WrittenAtOnce(values, front, revision, w.values)
    requires op.DeleteOp? && forall k :: InRange(op.range, k) ==> !PutsKey(front, k) && !DeletesKey(front, k)
    requires Execute(w, revision, op).Some?
    ensures WrittenAtOnce(values, front + [op], revision, Execute(w, revision, op).value.values)
    ensures KeysIn(w.values, op.range) == KeysIn(values, op.range)
  {
    hide DetachAll, InRange, PutsKey, DeletesKey;
    DeleteSeesOldKeys(values, front, op.range, revision, w.values);
    var ops, after := front + [op], Execute(w, revision, op).value.values;
    forall k ensures PutsKey(ops, k) == PutsKey(front, k)
             ensures DeletesKey(ops, k) == (DeletesKey(front, k) || InRange(op.range, k))
    {
      PutsSplit(front, op, k);
    }
    forall i | 0 <= i < |ops| && ops[i].PutOp?
      ensures ops[i].key in after && after[ops[i].key] == PutValue(values, ops[i], revision)
    {
      PutsIts(front, i);
    }
  }

  lemma PutsIts(ops: seq<Op>, i: nat)
    requires i < |ops| && ops[i].PutOp?
    ensures PutsKey(ops, ops[i].key)
  {
  }

  // ---- The second pass refines the specification ---------------------------

  /** Executing an accepted plan never fails, keeps both indexes, writes everything at once and
      emits an event exactly when the plan expected one. */
  ghost predicate Refines(values: map<Key, KeyValue>, leases: map<int, Lease>, p: Plan, revision: int,
                          ops: seq<Op>, w: Option<Work>) {
    && w.Some? && WorkOk(w.value, leases, revision)
    && WrittenAtOnce(values, ops, revision, w.value.values)
    && (p.effective <==> w.value.events != [])
    && |w.value.responses| == |ops|
  }

  lemma NothingWritten(values: map<Key, KeyValue>, revision: int)
    ensures WrittenAtOnce(values, [], revision, values)
  {
  }

  lemma ReadAtOnce(values: map<Key, KeyValue>, front: seq<Op>, op: Op, revision: int, after: map<Key, KeyValue>)
    requires WrittenAtOnce(values, front, revision, after) && op.RangeOp?
    ensures WrittenAtOnce(values, front + [op], revision, after)
  {
    var ops := front + [op];
    forall k ensures PutsKey(ops, k) <==> PutsKey(front, k) {
      PutsSplit(front, op, k);
    }
    forall k ensures DeletesKey(ops, k) <==> DeletesKey(front, k) {
      PutsSplit(front, op, k);
    }
    assert forall i :: 0 <= i < |ops| && ops[i].PutOp? ==> ops[i] == front[i];
  }

  lemma StepRefines(values: map<Key, KeyValue>, leases: map<int, Lease>, verified: set<int>, revision: int,
                    front: seq<Op>, op: Op, w: Work)
    requires ValuesOk(values, revision) && 0 !in leases && verified <= leases.Keys
    requires PlanAll(values, verified, front).Good?
    requires PlanError(values, verified, PlanAll(values, verified, front).plan, op).None?
    requires op.PutOp? ==> 0 < revision
    requires Refines(values, leases, PlanAll(values, verified, front).plan, revision, front, Some(w))
    ensures var p := PlanNext(values, PlanAll(values, verified, front).plan, op);
      Refines(values, leases, p, revision, front + [op], Execute(w, revision, op))
  {
    hide PlanAll, WrittenAtOnce, Agree, SameLeases, ValuesOk, PutsKey, DeletesKey;
    PlanSeparates(values, verified, front, op);
    match op {
      case RangeOp(_, _, _) => ReadAtOnce(values, front, op, revision, w.values);
      case PutOp(key, _, _, _) =>
        UntouchedKey(values, front, revision, w.values, key);
        ExecutePutOk(w, leases, revision, op);
        PutAtOnce(values, front, op, revision, w);
      case DeleteOp(range, _) =>
        ExecuteDeleteOk(w, leases, revision, op);
        DeleteAtOnce(values, front, op, revision, w);
        SortedEmpty(KeysIn(w.values, range));
    }
  }

  lemma SortedEmpty(s: set<Key>)
    ensures Sorted(s) == [] <==> s == {}
  {
    assert forall k :: k in Sorted(s) <==> k in s;
  }

  lemma {:induction false} ExecutionRefines(values: map<Key, KeyValue>, leases: map<int, Lease>, verified: set<int>,
                                            revision: int, ops: seq<Op>)
    requires ValuesOk(values, revision) && Agree(values, leases) && 0 !in leases && verified <= leases.Keys
    requires PlanAll(values, verified, ops).Good?
    requires PlanAll(values, verified, ops).plan.effective ==> 0 < revision
    ensures Refines(values, leases, PlanAll(values, verified, ops).plan, revision, ops,
                    ExecuteAll(values, leases, revision, ops))
  {
    hide Agree, ValuesOk, WrittenAtOnce, Execute, PlanError;
    if ops == [] {
      NothingWritten(values, revision);
      SameReflexive(leases);
    } else {
      var n := |ops| - 1;
      ExecutionRefines(values, leases, verified, revision, ops[..n]);
      assert ops == ops[..n] + [ops[n]];
      StepRefines(values, leases, verified, revision, ops[..n], ops[n],
                  ExecuteAll(values, leases, revision, ops[..n]).value);
    }
  }

  /** A transaction keeps the invariant, raises the revision by one exactly when it emits an
      event, and leaves the values that the chosen branch writes at once. */
  lemma TransactionRefines(d: Data, limits: Limits, t: Txn)
    requires DataInv(d, limits)
    ensures var r := DoTransact(d, t);
      && (r.Refused? ==> !r.error.Corrupt?)
      && (r.Done? ==> DataInv(r.data, limits) && SameLeases(d.leases, r.data.leases) && d.tick <= r.data.tick)
      && (r.Done? ==> r.data.nextLease == d.nextLease && r.data.nextToken == d.nextToken)
      && (r.Done? ==>
            WrittenAtOnce(d.values, Branch(d, t, AllHold(d.values, t.comparisons).value), r.data.revision,
                r.data.values))
      && (r.Done? && r.events.Some? ==> r.data.revision == d.revision + 1 && r.events.value != [])
      && (r.Done? && r.events.None? ==> r.data.revision == d.revision && r.data.values == d.values)
  {
    hide AllHold, PlanAll, ExecuteAll, ValuesOk, Agree, WrittenAtOnce, LeasesOk, SameLeases, Owns;
    var r := DoTransact(d, t);
    var holds := AllHold(d.values, t.comparisons);
    if holds.Some? && OwnershipsOk(t.ownership) {
      var ops, verified := Branch(d, t, holds.value), Verified(d.leases, t.tick, t.ownership);
      var planned := PlanAll(d.values, verified, ops);
      PlanIsNotCorrupt(d.values, verified, ops);
      if planned.Good? {
        NoLeaseZero(d, limits);
        VerifiedLive(d.leases, t.tick, t.ownership);
        var revision := if planned.plan.effective then d.revision + 1 else d.revision;
        ValuesRise(d.values, d.revision, revision);
        ExecutionRefines(d.values, d.leases, verified, revision, ops);
        if r.Done? {
          LeasesKept(d, r.data, limits);
          if !planned.plan.effective {
            IneffectiveChangesNothing(d.values, verified, ops, revision, r.data.values);
          }
        }
      }
    }
  }

  lemma {:induction false} PlanIsNotCorrupt(values: map<Key, KeyValue>, verified: set<int>, ops: seq<Op>)
    ensures var p := PlanAll(values, verified, ops); p.Bad? ==> !p.error.Corrupt?
  {
    if ops != [] {
      PlanIsNotCorrupt(values, verified, ops[..|ops| - 1]);
    }
  }

  lemma VerifiedLive(leases: map<int, Lease>, tick: nat, os: seq<Ownership>)
    ensures Verified(leases, tick, os) <= leases.Keys
  {
  }

  lemma {:induction false} IneffectivePlan(values: map<Key, KeyValue>, verified: set<int>, ops: seq<Op>)
    requires PlanAll(values, verified, ops).Good? && !PlanAll(values, verified, ops).plan.effective
    ensures forall k :: !PutsKey(ops, k)
    ensures forall k :: k in values ==> !DeletesKey(ops, k)
  {
    if ops != [] {
      var n := |ops| - 1;
      IneffectivePlan(values, verified, ops[..n]);
      assert ops == ops[..n] + [ops[n]];
      forall k ensures !PutsKey(ops, k) && (k in values ==> !DeletesKey(ops, k)) {
        PutsSplit(ops[..n], ops[n], k);
        if ops[n].DeleteOp? && k in values {
          assert k !in KeysIn(values, ops[n].range);
        }
      }
    }
  }

  lemma IneffectiveChangesNothing(values: map<Key, KeyValue>, verified: set<int>, ops: seq<Op>, revision: int,
                                  after: map<Key, KeyValue>)
    requires PlanAll(values, verified, ops).Good? && !PlanAll(values, verified, ops).plan.effective
    requires WrittenAtOnce(values, ops, revision, after)
    ensures after == values
  {
    hide PlanAll;
    IneffectivePlan(values, verified, ops);
    forall k ensures Lookup(after, k) == Lookup(values, k) {
      assert !PutsKey(ops, k);
    }
    assert forall k :: k in after <==> k in values by {
      forall k ensures k in after <==> k in values {
        assert Lookup(after, k) == Lookup(values, k);
      }
    }
    assert forall k :: k in values ==> Lookup(after, k) == Lookup(values, k);
  }

  // ---- The order of the writes does not matter -----------------------------

  predicate OpOk(values: map<Key, KeyValue>, verified: set<int>, op: Op) {
    match op
    case RangeOp(range, _, at) => RangeOk(range) && at == 0
    case PutOp(key, _, lease, _) =>
      && key != [] && 0 <= lease && (lease == 0 || lease in verified)
      && (key in values ==> values[key].version != INT64_MAX)
    case DeleteOp(range, _) => RangeOk(range)
  }

  /** Two operations that may stand in one transaction, in either order. */
  predicate Compatible(a: Op, b: Op) {
    && (a.PutOp? && b.PutOp? ==> a.key != b.key)
    && (a.PutOp? && b.DeleteOp? ==> !InRange(b.range, a.key))
    && (a.DeleteOp? && b.PutOp? ==> !InRange(a.range, b.key))
    && (a.DeleteOp? && b.DeleteOp? ==> !Overlap(a.range, b.range))
  }

  predicate AllCompatible(ops: seq<Op>) {
    forall i, j :: 0 <= i < |ops| && 0 <= j < |ops| && i != j ==> Compatible(ops[i], ops[j])
  }

  predicate AllOk(values: map<Key, KeyValue>, verified: set<int>, ops: seq<Op>) {
    forall i :: 0 <= i < |ops| ==> OpOk(values, verified, ops[i])
  }

  lemma LastCompatible(values: map<Key, KeyValue>, verified: set<int>, front: seq<Op>, op: Op)
    requires PlanAll(values, verified, front).Good?
    ensures PlanError(values, verified, PlanAll(values, verified, front).plan, op).None? <==>
      OpOk(values, verified, op) && forall i :: 0 <= i < |front| ==> Compatible(front[i], op)
  {
    PlannedOps(values, verified, front);
    hide PlanAll;
    var p := PlanAll(values, verified, front).plan;
    match op {
      case RangeOp(_, _, _) =>
      case PutOp(key, _, _, _) =>
        assert key in p.puts <==> exists i :: 0 <= i < |front| && front[i].PutOp? && front[i].key == key;
        assert (exists r :: r in p.deletes && InRange(r, key)) <==>
               exists i :: 0 <= i < |front| && front[i].DeleteOp? && InRange(front[i].range, key);
      case DeleteOp(range, _) =>
        assert (exists r :: r in p.deletes && Overlap(r, range)) <==>
               exists i :: 0 <= i < |front| && front[i].DeleteOp? && Overlap(front[i].range, range);
        assert (exists k :: k in p.puts && InRange(range, k)) <==>
               exists i :: 0 <= i < |front| && front[i].PutOp? && InRange(range, front[i].key);
    }
  }

  /** A plan is accepted exactly when every operation is well formed and no two get in each
      other's way, a condition without order. */
  lemma {:induction false} PlanGoodIff(values: map<Key, KeyValue>, verified: set<int>, ops: seq<Op>)
    ensures PlanAll(values, verified, ops).Good? <==> AllOk(values, verified, ops) && AllCompatible(ops)
  {
    hide PlanError, OpOk, Compatible;
    if ops != [] {
      var n := |ops| - 1;
      var front, op := ops[..n], ops[n];
      PlanGoodIff(values, verified, front);
      assert forall i :: 0 <= i < n ==> ops[i] == front[i];
      if PlanAll(values, verified, front).Good? {
        LastCompatible(values, verified, front, op);
        forall i | 0 <= i < n ensures Compatible(front[i], op) == Compatible(op, front[i]) {
          CompatibleSymmetric(front[i], op);
        }
      }
    }
  }

  lemma CompatibleSymmetric(a: Op, b: Op)
    ensures Compatible(a, b) == Compatible(b, a)
  {
  }

  /** `b` holds the operations of `a` in the order given by `order`. */
  predicate Permuted(a: seq<Op>, b: seq<Op>, order: seq<nat>) {
    && |order| == |a| == |b| && NoDuplicates(order)
    && (forall i :: 0 <= i < |b| ==> order[i] < |a| && b[i] == a[order[i]])
    && (forall j: nat :: j < |a| ==> j in order)
  }

  lemma PermutedPlan(values: map<Key, KeyValue>, verified: set<int>, a: seq<Op>, b: seq<Op>, order: seq<nat>)
    requires Permuted(a, b, order) && PlanAll(values, verified, a).Good?
    ensures PlanAll(values, verified, b).Good?
  {
    hide OpOk, Compatible, PlanAll;
    PlanGoodIff(values, verified, a);
    PlanGoodIff(values, verified, b);
    forall i, j | 0 <= i < |b| && 0 <= j < |b| && i != j ensures Compatible(b[i], b[j]) {
      assert order[i] != order[j];
    }
  }

  lemma PermutedWrites(values: map<Key, KeyValue>, a: seq<Op>, b: seq<Op>, order: seq<nat>, revision: int,
                       after: map<Key, KeyValue>)
    requires Permuted(a, b, order) && WrittenAtOnce(values, a, revision, after)
    ensures WrittenAtOnce(values, b, revision, after)
  {
    forall k ensures PutsKey(a, k) == PutsKey(b, k) && DeletesKey(a, k) == DeletesKey(b, k) {
      PermutedKeys(a, b, order, k);
    }
  }

  lemma PermutedKeys(a: seq<Op>, b: seq<Op>, order: seq<nat>, k: Key)
    requires Permuted(a, b, order)
    ensures PutsKey(a, k) == PutsKey(b, k) && DeletesKey(a, k) == DeletesKey(b, k)
  {
    forall j: nat | j < |a| ensures exists i :: 0 <= i < |b| && b[i] == a[j] {
      assert j in order;
      var i :| 0 <= i < |order| && order[i] == j;
      assert b[i] == a[j];
    }
  }

  /** The attached keys follow from the values. */
  lemma LeasesDetermined(values: map<Key, KeyValue>, was: map<int, Lease>, a: map<int, Lease>, b: map<int, Lease>)
    requires Agree(values, a) && Agree(values, b) && SameLeases(was, a) && SameLeases(was, b) && 0 !in was
    ensures a == b
  {
    forall id | id in was ensures a[id].keys == b[id].keys {
      assert forall k :: k in a[id].keys <==> k in values && values[k].lease == id;
      assert forall k :: k in b[id].keys <==> k in values && values[k].lease == id;
    }
    assert a.Keys == b.Keys;
    assert forall id :: id in a ==> a[id] == b[id];
  }

  predicate Acts(values: map<Key, KeyValue>, op: Op) {
    op.PutOp? || (op.DeleteOp? && KeysIn(values, op.range) != {})
  }

  /** A plan is effective if and only if some operation puts a key or deletes one. */
  lemma {:induction false} EffectiveIff(values: map<Key, KeyValue>, verified: set<int>, ops: seq<Op>)
    requires PlanAll(values, verified, ops).Good?
    ensures PlanAll(values, verified, ops).plan.effective <==> exists i :: 0 <= i < |ops| && Acts(values, ops[i])
  {
    if ops != [] {
      var n := |ops| - 1;
      EffectiveIff(values, verified, ops[..n]);
      assert forall i :: 0 <= i < n ==> ops[i] == ops[..n][i];
      assert PlanAll(values, verified, ops).plan
          == PlanNext(values, PlanAll(values, verified, ops[..n]).plan, ops[n]);
    }
  }

  lemma PermutedEffect(values: map<Key, KeyValue>, verified: set<int>, a: seq<Op>, b: seq<Op>, order: seq<nat>)
    requires Permuted(a, b, order) && PlanAll(values, verified, a).Good? && PlanAll(values, verified, b).Good?
    ensures PlanAll(values, verified, b).plan.effective ==> PlanAll(values, verified, a).plan.effective
  {
    hide PlanAll;
    EffectiveIff(values, verified, a);
    EffectiveIff(values, verified, b);
    if i :| 0 <= i < |b| && Acts(values, b[i]) {
      assert b[i] == a[order[i]];
    }
  }

  /** Permuting the operations of an accepted branch leaves the same keys and leases. */
  lemma PermutedTransaction(d: Data, limits: Limits, verified: set<int>, revision: int,
                            a: seq<Op>, b: seq<Op>, order: seq<nat>)
    requires DataInv(d, limits) && verified <= d.leases.Keys && Permuted(a, b, order)
    requires PlanAll(d.values, verified, a).Good? && d.revision <= revision
    requires PlanAll(d.values, verified, a).plan.effective ==> 0 < revision
    ensures PlanAll(d.values, verified, b).Good?
    ensures var wa, wb := ExecuteAll(d.values, d.leases, revision, a), ExecuteAll(d.values, d.leases, revision, b);
      wa.Some? && wb.Some? && wa.value.values == wb.value.values && wa.value.leases == wb.value.leases
  {
    hide Agree, ValuesOk, WrittenAtOnce, PlanAll, LeasesOk, ExecuteAll, Permuted, SameLeases;
    NoLeaseZero(d, limits);
    ValuesRise(d.values, d.revision, revision);
    PermutedPlan(d.values, verified, a, b, order);
    PermutedEffect(d.values, verified, a, b, order);
    ExecutionRefines(d.values, d.leases, verified, revision, a);
    ExecutionRefines(d.values, d.leases, verified, revision, b);
    var wa, wb := ExecuteAll(d.values, d.leases, revision, a).value, ExecuteAll(d.values, d.leases, revision, b).value;
    PermutedWrites(d.values, a, b, order, revision, wa.values);
    WrittenAtOnceIsUnique(d.values, b, revision, wa.values, wb.values);
    LeasesDetermined(wa.values, d.leases, wa.leases, wb.leases);
  }

  // ---- Leases --------------------------------------------------------------

  lemma {:induction false} MapSubset(a: map<int, Lease>, ids: set<int>)
    ensures |a - ids| <= |a|
  {
    assert (a - ids).Keys == a.Keys - ids;
    assert |a - ids| == |(a - ids).Keys|;
    assert a.Keys == (a.Keys - ids) + (a.Keys * ids);
  }

  /** Cleanup deletes exactly the keys that carry a removed lease, at one new revision. */
  lemma CleanupExact(d: Data, limits: Limits, ids: set<int>, tick: nat)
    requires DataInv(d, limits) && ids <= d.leases.Keys && d.tick <= tick
    ensures var r := RemoveLeases(d, ids, tick);
      && (r.Refused? ==> !r.error.Corrupt?)
      && (r.Done? ==> DataInv(r.data, limits) && r.data.leases == d.leases - ids && r.data.tick == tick)
      && (r.Done? ==> forall k :: k in r.data.values <==> k in d.values && d.values[k].lease !in ids)
      && (r.Done? ==> forall k :: k in r.data.values ==> r.data.values[k] == d.values[k])
      && (r.Done? ==> r.data.revision == d.revision + (if ids == {} then 0 else 1))
  {
    NoLeaseZero(d, limits);
    MapSubset(d.leases, ids);
    var keys := AttachedTo(d.leases, ids);
    assert forall k :: k in keys <==> k in d.values && d.values[k].lease in ids by {
      forall k | k in d.values && d.values[k].lease in ids ensures k in keys {
        assert k in d.leases[d.values[k].lease].keys;
      }
    }
  }

  // ---- Any command ---------------------------------------------------------

  lemma GrantKeeps(d: Data, limits: Limits, tick: nat, ttl: nat, requested: int)
    requires DataInv(d, limits)
    ensures var r := DoGrant(d, limits, tick, ttl, requested);
      && (r.Refused? ==> !r.error.Corrupt?)
      && (r.Done? ==> DataInv(r.data, limits))
      && (r.Done? ==> r.data.revision == d.revision && r.events.None?)
  {
    var r := DoGrant(d, limits, tick, ttl, requested);
    if r.Done? {
      assert |r.data.leases| == |d.leases| + 1;
    }
  }

  lemma KeepAliveKeeps(d: Data, limits: Limits, tick: nat, id: int, token: nat)
    requires DataInv(d, limits)
    ensures var r := DoKeepAlive(d, tick, id, token);
      && (r.Refused? ==> !r.error.Corrupt?)
      && (r.Done? ==> DataInv(r.data, limits))
      && (r.Done? ==> r.data.revision == d.revision && r.events.None?)
  {
    var r := DoKeepAlive(d, tick, id, token);
    if r.Done? && r.data.leases != d.leases {
      assert r.data.leases.Keys == d.leases.Keys;
      assert |r.data.leases| == |r.data.leases.Keys| == |d.leases.Keys| == |d.leases|;
    }
  }

  /** Every command keeps the invariant and reports no corruption; the revision rises by one
      exactly when there are events to publish. */
  lemma RunKeeps(d: Data, limits: Limits, c: StoreCommand)
    requires DataInv(d, limits)
    ensures var r := Run(d, limits, c);
      && (r.Refused? ==> !r.error.Corrupt?)
      && (r.Done? ==> DataInv(r.data, limits) && d.tick <= r.data.tick)
      && (r.Done? ==> r.data.revision == d.revision + (if r.events.Some? then 1 else 0))
  {
    hide DataInv, WriteOne, DoErase, DoTransact, DoGrant, DoKeepAlive, RemoveLeases;
    match c {
      case Put(key, value) => if key != [] { WriteKeeps(d, limits, key, value); WriteTick(d, key, value); }
      case Erase(key) => EraseKeeps(d, limits, key); EraseTick(d, key);
      case CompareAndSet(key, _, value) => if key != [] { WriteKeeps(d, limits, key, value); WriteTick(d, key, value); }
      case Transact(t) => TransactionRefines(d, limits, t);
      case Grant(tick, ttl, requested) =>
        GrantKeeps(d, limits, tick, ttl, requested);
        GrantTick(d, limits, tick, ttl, requested);
      case KeepAlive(tick, id, token) => KeepAliveKeeps(d, limits, tick, id, token); KeepAliveTick(d, tick, id, token);
      case Revoke(tick, id, token) =>
        if d.tick <= tick && id in d.leases { CleanupExact(d, limits, {id}, tick); RemoveEvents(d, {id}, tick); }
        TickKeeps(d, limits, tick);
      case Expire(tick) =>
        if d.tick <= tick {
          CleanupExact(d, limits, ExpiredIds(d.leases, tick), tick);
          RemoveEvents(d, ExpiredIds(d.leases, tick), tick);
        }
      case Get(_) =>
      case TimeToLive(_, _) =>
    }
  }

  lemma TickKeeps(d: Data, limits: Limits, tick: nat)
    requires DataInv(d, limits)
    ensures DataInv(d.(tick := tick), limits)
  {
  }

  lemma WriteTick(d: Data, key: Key, value: Bytes)
    ensures WriteOne(d, key, value).Done? ==> WriteOne(d, key, value).data.tick == d.tick
    ensures WriteOne(d, key, value).Done? ==> WriteOne(d, key, value).answer.Wrote?
  {
  }

  lemma EraseTick(d: Data, key: Key)
    ensures DoErase(d, key).Done? ==> DoErase(d, key).data.tick == d.tick
  {
  }

  lemma GrantTick(d: Data, limits: Limits, tick: nat, ttl: nat, requested: int)
    ensures var r := DoGrant(d, limits, tick, ttl, requested); r.Done? ==> d.tick <= r.data.tick
  {
  }

  lemma KeepAliveTick(d: Data, tick: nat, id: int, token: nat)
    ensures var r := DoKeepAlive(d, tick, id, token); r.Done? ==> d.tick <= r.data.tick
  {
  }

  lemma RemoveEvents(d: Data, ids: set<int>, tick: nat)
    requires ids <= d.leases.Keys
    ensures var r := RemoveLeases(d, ids, tick); r.Done? ==> (r.events.Some? <==> ids != {})
  {
  }
}
