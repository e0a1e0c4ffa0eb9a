/** Whole runs of the store: dead lease generations stay dead, and a snapshot restores a store
    that answers like the original. */
module StoreRuns {
  import opened RaftTypes
  import opened ByteCodec
  import opened KeyOrder
  import opened StoreModel
  import opened StoreProofs

  // ---- Runs ----------------------------------------------------------------

  /** The data after one command; a refused command changes nothing. */
  function Next(d: Data, limits: Limits, c: StoreCommand): Data {
    var r := Run(d, limits, c);
    if r.Done? then r.data else d
  }

  function After(d: Data, limits: Limits, cs: seq<StoreCommand>): Data {
    if cs == [] then d else Next(After(d, limits, cs[..|cs| - 1]), limits, cs[|cs| - 1])
  }

  lemma EmptyIsValid(limits: Limits)
    ensures DataInv(EMPTY, limits)
  {
  }

  /** From the empty store, the invariant holds after every sequence of commands. */
  lemma {:induction false} AfterKeeps(d: Data, limits: Limits, cs: seq<StoreCommand>)
    requires DataInv(d, limits)
    ensures DataInv(After(d, limits, cs), limits)
  {
    hide DataInv, Run;
    if cs != [] {
      AfterKeeps(d, limits, cs[..|cs| - 1]);
      RunKeeps(After(d, limits, cs[..|cs| - 1]), limits, cs[|cs| - 1]);
    }
  }

  /** No command of any run ever meets disagreeing indexes. */
  lemma NeverCorrupt(limits: Limits, cs: seq<StoreCommand>, c: StoreCommand)
    ensures Run(After(EMPTY, limits, cs), limits, c) != Refused(Corrupt)
    ensures Agree(After(EMPTY, limits, cs).values, After(EMPTY, limits, cs).leases)
  {
    hide Run, ValuesOk, LeasesOk, Agree;
    EmptyIsValid(limits);
    AfterKeeps(EMPTY, limits, cs);
    RunKeeps(After(EMPTY, limits, cs), limits, c);
  }

  // ---- Fencing -------------------------------------------------------------

  /** The generation was issued and is gone: removed, replaced, or past its deadline. */
  predicate Dead(d: Data, id: int, token: nat) {
    && 0 < token < d.nextToken
    && !(id in d.leases && d.leases[id].token == token && d.tick < d.leases[id].expiry)
  }

  lemma DeadUnderSameLeases(d: Data, d': Data, id: int, token: nat)
    requires Dead(d, id, token) && SameLeases(d.leases, d'.leases) && d.tick <= d'.tick && d'.nextToken == d.nextToken
    ensures Dead(d', id, token)
  {
  }

  lemma WriteSame(d: Data, limits: Limits, key: Key, value: Bytes)
    requires DataInv(d, limits) && key != [] && WriteOne(d, key, value).Done?
    ensures var d' := WriteOne(d, key, value).data;
      SameLeases(d.leases, d'.leases) && d'.tick == d.tick && d'.nextToken == d.nextToken
  {
    hide Relink, Agree, SameLeases, ValuesOk;
    NoLeaseZero(d, limits);
    RelinkFor(d, limits, key, value);
  }

  lemma RelinkFor(d: Data, limits: Limits, key: Key, value: Bytes)
    requires DataInv(d, limits)
    ensures var r := Relink(d.leases, Lookup(d.values, key), key, 0); r.Some? && SameLeases(d.leases, r.value)
  {
    hide Relink, Agree, SameLeases;
    NoLeaseZero(d, limits);
    RelinkAgrees(d.values, d.leases, NextValue(Lookup(d.values, key), key, value, 0, d.revision + 1));
  }

  lemma EraseSame(d: Data, limits: Limits, key: Key)
    requires DataInv(d, limits) && DoErase(d, key).Done?
    ensures var d' := DoErase(d, key).data;
      SameLeases(d.leases, d'.leases) && d'.tick == d.tick && d'.nextToken == d.nextToken
  {
    NoLeaseZero(d, limits);
    if key in d.values && key != [] {
      DetachAgrees(d.values, d.leases, key);
    }
  }

  /** A dead generation stays dead, even when its id is granted again. */
  lemma DeadStays(d: Data, limits: Limits, c: StoreCommand, id: int, token: nat)
    requires DataInv(d, limits) && Dead(d, id, token)
    ensures Dead(Next(d, limits, c), id, token)
  {
    if Run(d, limits, c).Done? {
      match c {
        case Put(key, value) =>
          hide DataInv, SameLeases, WriteOne;
          WriteSame(d, limits, key, value);
          DeadUnderSameLeases(d, Next(d, limits, c), id, token);
        case Erase(key) =>
          hide DataInv, SameLeases, DoErase;
          EraseSame(d, limits, key);
          DeadUnderSameLeases(d, Next(d, limits, c), id, token);
        case CompareAndSet(key, _, value) => CasDead(d, limits, c, id, token);
        case Transact(t) =>
          hide DataInv, SameLeases, DoTransact;
          TransactionRefines(d, limits, t);
          DeadUnderSameLeases(d, Next(d, limits, c), id, token);
        case Grant(_, _, _) =>
        case KeepAlive(_, _, _) =>
        case Revoke(tick, id', _) => hide Listed, Sorted;
        case Expire(tick) => hide Listed, Sorted;
        case Get(_) =>
        case TimeToLive(_, _) =>
      }
    }
  }

  lemma CasDead(d: Data, limits: Limits, c: StoreCommand, id: int, token: nat)
    requires DataInv(d, limits) && Dead(d, id, token) && c.CompareAndSet? && Run(d, limits, c).Done?
    ensures Dead(Next(d, limits, c), id, token)
  {
    hide DataInv, SameLeases, WriteOne, Dead;
    if Next(d, limits, c) != d {
      WriteTick(d, c.key, c.value);
      WriteSame(d, limits, c.key, c.value);
      DeadUnderSameLeases(d, Next(d, limits, c), id, token);
    }
  }

  lemma {:induction false} DeadForever(d: Data, limits: Limits, cs: seq<StoreCommand>, id: int, token: nat)
    requires DataInv(d, limits) && Dead(d, id, token)
    ensures Dead(After(d, limits, cs), id, token)
  {
    hide DataInv, Dead, Next;
    if cs != [] {
      var front := cs[..|cs| - 1];
      DeadForever(d, limits, front, id, token);
      AfterKeeps(d, limits, front);
      DeadStays(After(d, limits, front), limits, cs[|cs| - 1], id, token);
    }
  }

  /** A transaction that claims a dead generation does not take its success branch. */
  lemma DeadDoesNotSucceed(d: Data, t: Txn, id: int, token: nat)
    requires Dead(d, id, token) && Ownership(id, token) in t.ownership && DoTransact(d, t).Done?
    ensures !DoTransact(d, t).answer.succeeded
  {
    hide PlanAll, ExecuteAll, AllHold;
    var i :| 0 <= i < |t.ownership| && t.ownership[i] == Ownership(id, token);
    assert !Owns(d.leases, t.tick, t.ownership[i]);
  }

  lemma DeadIsNotRevived(d: Data, tick: nat, id: int, token: nat)
    requires Dead(d, id, token) && DoKeepAlive(d, tick, id, token).Done?
    ensures !DoKeepAlive(d, tick, id, token).answer.code.LeaseOk?
    ensures DoKeepAlive(d, tick, id, token).data.leases == d.leases
  {
  }

  /** Fencing over whole runs: once a generation is dead, no later transaction that carries it
      succeeds and no keepalive revives it. */
  lemma FencedForever(d: Data, limits: Limits, cs: seq<StoreCommand>, id: int, token: nat, t: Txn, tick: nat)
    requires DataInv(d, limits) && Dead(d, id, token)
    ensures var later := After(d, limits, cs);
      && (Ownership(id, token) in t.ownership && DoTransact(later, t).Done? ==>
            !DoTransact(later, t).answer.succeeded)
      && (DoKeepAlive(later, tick, id, token).Done? ==>
            !DoKeepAlive(later, tick, id, token).answer.code.LeaseOk?)
  {
    hide DataInv, Dead, DoTransact, DoKeepAlive, After;
    DeadForever(d, limits, cs, id, token);
    var later := After(d, limits, cs);
    if Ownership(id, token) in t.ownership && DoTransact(later, t).Done? {
      DeadDoesNotSucceed(later, t, id, token);
    }
    if DoKeepAlive(later, tick, id, token).Done? {
      DeadIsNotRevived(later, tick, id, token);
    }
  }

  /** How a generation dies: it is revoked, it expires, or a tick reaches its deadline. */
  lemma RevokedIsDead(d: Data, limits: Limits, tick: nat, id: int, token: nat)
    requires DataInv(d, limits) && DoRevoke(d, tick, id, token).Done?
    requires DoRevoke(d, tick, id, token).answer.code.LeaseOk?
    ensures Dead(DoRevoke(d, tick, id, token).data, id, token)
  {
    hide Listed, Sorted;
  }

  lemma ExpiredIsDead(d: Data, limits: Limits, tick: nat, id: int)
    requires DataInv(d, limits) && DoExpire(d, tick).Done? && id in d.leases && d.leases[id].expiry <= tick
    ensures id !in DoExpire(d, tick).data.leases && Dead(DoExpire(d, tick).data, id, d.leases[id].token)
  {
    hide Listed, Sorted;
  }

  lemma TickReachesDeadline(d: Data, limits: Limits, id: int)
    requires DataInv(d, limits) && id in d.leases && d.leases[id].expiry <= d.tick
    ensures Dead(d, id, d.leases[id].token)
  {
  }

  // ---- Snapshots -----------------------------------------------------------

  datatype LeaseRecord = LeaseRecord(id: int, token: nat, ttl: nat, expiry: nat, attached: seq<Key>)

  datatype Snapshot = Snapshot(
    revision: int, tick: nat, nextLease: int, nextToken: nat, values: seq<KeyValue>, leases: seq<LeaseRecord>)

  predicate LeastId(s: set<int>, i: int) {
    i in s && forall j :: j in s ==> i <= j
  }

  lemma SomeId(s: set<int>) returns (i: int)
    requires s != {}
    ensures i in s
  {
    assert (forall j: int :: j !in s) ==> s == {};
    i :| i in s;
  }

  lemma {:induction false} LeastIdExists(s: set<int>)
    requires s != {}
    ensures exists i :: i in s && LeastId(s, i)
    decreases |s|
  {
    var i := SomeId(s);
    var rest := s - {i};
    if rest == {} {
      assert s == {i};
      assert LeastId(s, i);
    } else {
      LeastIdExists(rest);
      var j :| j in rest && LeastId(rest, j);
      assert forall k :: k in s ==> k == i || k in rest;
      assert LeastId(s, if i <= j then i else j);
    }
  }

  /** The ids in the order in which an ordered map is walked. */
  function SortedIds(s: set<int>): (ids: seq<int>)
    ensures NoDuplicates(ids) && forall i :: i in ids <==> i in s
    decreases |s|
  {
    if s == {} then []
    else
      LeastIdExists(s);
      var i :| i in s && LeastId(s, i);
      var rest := SortedIds(s - {i});
      assert i !in rest;
      [i] + rest
  }

  function RecordOf(id: int, l: Lease): LeaseRecord {
    LeaseRecord(id, l.token, l.ttl, l.expiry, Sorted(l.keys))
  }

  function Records(leases: map<int, Lease>, ids: seq<int>): (out: seq<LeaseRecord>)
    requires forall i :: i in ids ==> i in leases
    ensures |out| == |ids| && forall i :: 0 <= i < |ids| ==> out[i] == RecordOf(ids[i], leases[ids[i]])
  {
    seq(|ids|, i requires 0 <= i < |ids| => RecordOf(ids[i], leases[ids[i]]))
  }

  function Take(d: Data): Snapshot {
    Snapshot(d.revision, d.tick, d.nextLease, d.nextToken,
             Listed(d.values, Sorted(d.values.Keys)), Records(d.leases, SortedIds(d.leases.Keys)))
  }

  // ---- The restoring constructor -------------------------------------------

  predicate RecordOk(r: LeaseRecord) {
    0 < r.id <= MAX_LEASE_ID && r.token != 0 && r.ttl != 0
    && (forall i :: 0 <= i < |r.attached| ==> r.attached[i] != []) && NoDuplicates(r.attached)
  }

  predicate RecordsOk(rs: seq<LeaseRecord>) {
    (forall i :: 0 <= i < |rs| ==> RecordOk(rs[i])) && forall i, j :: 0 <= i < j < |rs| ==> rs[i].id != rs[j].id
  }

  function LeaseOf(r: LeaseRecord): Lease {
    Lease(r.token, r.ttl, r.expiry, set k | k in r.attached)
  }

  function LeaseMap(rs: seq<LeaseRecord>): map<int, Lease> {
    if rs == [] then map[]
    else LeaseMap(rs[..|rs| - 1])[rs[|rs| - 1].id := LeaseOf(rs[|rs| - 1])]
  }

  predicate SnapshotValueOk(v: KeyValue, revision: int, leases: map<int, Lease>) {
    && v.key != [] && 0 < v.version && 0 < v.created <= v.modified <= revision && 0 <= v.lease
    && (v.lease != 0 ==> v.lease in leases && v.key in leases[v.lease].keys)
  }

  predicate SnapshotValuesOk(vs: seq<KeyValue>, revision: int, leases: map<int, Lease>) {
    && (forall i :: 0 <= i < |vs| ==> SnapshotValueOk(vs[i], revision, leases))
    && forall i, j :: 0 <= i < j < |vs| ==> vs[i].key != vs[j].key
  }

  function ValueMap(vs: seq<KeyValue>): map<Key, KeyValue> {
    if vs == [] then map[]
    else ValueMap(vs[..|vs| - 1])[vs[|vs| - 1].key := vs[|vs| - 1]]
  }

  predicate CrossOk(s: Snapshot, values: map<Key, KeyValue>, leases: map<int, Lease>) {
    forall id :: id in leases ==>
      && id < s.nextLease && leases[id].token < s.nextToken
      && forall k :: k in leases[id].keys ==> k in values && values[k].lease == id
  }

  predicate Acceptable(s: Snapshot, limits: Limits) {
    && 0 <= s.revision && 0 < s.nextLease && s.nextToken != 0
    && |s.leases| <= limits.maxLeases
    && RecordsOk(s.leases)
    && SnapshotValuesOk(s.values, s.revision, LeaseMap(s.leases))
    && CrossOk(s, ValueMap(s.values), LeaseMap(s.leases))
  }

  function RestoredData(s: Snapshot): Data {
    Data(ValueMap(s.values), LeaseMap(s.leases), s.revision, s.tick, s.nextLease, s.nextToken)
  }

  /** The restoring constructor: three loops of checks, building both maps on the way. */
  method Restore(s: Snapshot, limits: Limits) returns (d: Option<Data>)
    ensures d.Some? <==> Acceptable(s, limits)
    ensures d.Some? ==> d.value == RestoredData(s)
  {
    if s.revision < 0 || s.nextLease <= 0 || s.nextToken == 0 { return None; }
    if |s.leases| > limits.maxLeases { return None; }
    var leases := RestoreLeases(s.leases);
    if leases.None? { return None; }
    var values := RestoreValues(s.values, s.revision, leases.value);
    if values.None? { return None; }
    var crossed := CheckCross(s, values.value, leases.value);
    if !crossed { return None; }
    return Some(Data(values.value, leases.value, s.revision, s.tick, s.nextLease, s.nextToken));
  }

  method CheckRecord(r: LeaseRecord) returns (keys: Option<set<Key>>)
    ensures keys.Some? <==> RecordOk(r)
    ensures keys.Some? ==> keys.value == set k | k in r.attached
  {
    if r.id <= 0 || r.id > MAX_LEASE_ID || r.token == 0 || r.ttl == 0 { return None; }
    var seen: set<Key> := {};
    for i := 0 to |r.attached|
      invariant forall j :: 0 <= j < i ==> r.attached[j] != []
      invariant NoDuplicates(r.attached[..i])
      invariant seen == set k | k in r.attached[..i]
    {
      assert r.attached[..i + 1] == r.attached[..i] + [r.attached[i]];
      if r.attached[i] == [] { return None; }
      if r.attached[i] in seen {
        var j :| 0 <= j < i && r.attached[..i][j] == r.attached[i];
        assert r.attached[j] == r.attached[i];
        return None;
      }
      seen := seen + {r.attached[i]};
    }
    assert r.attached[..|r.attached|] == r.attached;
    return Some(seen);
  }

  predicate HasId(rs: seq<LeaseRecord>, id: int) {
    exists i :: 0 <= i < |rs| && rs[i].id == id
  }

  predicate HasKey(vs: seq<KeyValue>, k: Key) {
    exists i :: 0 <= i < |vs| && vs[i].key == k
  }

  lemma {:induction false} LeaseMapKeys(rs: seq<LeaseRecord>, id: int)
    ensures id in LeaseMap(rs) <==> HasId(rs, id)
  {
    if rs != [] {
      var n := |rs| - 1;
      LeaseMapKeys(rs[..n], id);
      assert forall i :: 0 <= i < n ==> rs[i] == rs[..n][i];
      assert HasId(rs, id) <==> HasId(rs[..n], id) || rs[n].id == id;
    }
  }

  lemma {:induction false} ValueMapKeys(vs: seq<KeyValue>, k: Key)
    ensures k in ValueMap(vs) <==> HasKey(vs, k)
  {
    if vs != [] {
      var n := |vs| - 1;
      ValueMapKeys(vs[..n], k);
      assert forall i :: 0 <= i < n ==> vs[i] == vs[..n][i];
      assert HasKey(vs, k) <==> HasKey(vs[..n], k) || vs[n].key == k;
    }
  }

  method RestoreLeases(rs: seq<LeaseRecord>) returns (leases: Option<map<int, Lease>>)
    ensures leases.Some? <==> RecordsOk(rs)
    ensures leases.Some? ==> leases.value == LeaseMap(rs)
  {
    hide RecordOk;
    var built: map<int, Lease> := map[];
    for i := 0 to |rs|
      invariant RecordsOk(rs[..i]) && built == LeaseMap(rs[..i])
    {
      assert rs[..i + 1][..i] == rs[..i];
      var keys := CheckRecord(rs[i]);
      if keys.None? { return None; }
      LeaseMapKeys(rs[..i], rs[i].id);
      if rs[i].id in built {
        var j :| 0 <= j < i && rs[..i][j].id == rs[i].id;
        assert rs[j].id == rs[i].id;
        return None;
      }
      built := built[rs[i].id := Lease(rs[i].token, rs[i].ttl, rs[i].expiry, keys.value)];
    }
    assert rs[..|rs|] == rs;
    return Some(built);
  }

  method RestoreValues(vs: seq<KeyValue>, revision: int, leases: map<int, Lease>)
    returns (values: Option<map<Key, KeyValue>>)
    ensures values.Some? <==> SnapshotValuesOk(vs, revision, leases)
    ensures values.Some? ==> values.value == ValueMap(vs)
  {
    hide SnapshotValueOk;
    var built: map<Key, KeyValue> := map[];
    for i := 0 to |vs|
      invariant SnapshotValuesOk(vs[..i], revision, leases) && built == ValueMap(vs[..i])
    {
      assert vs[..i + 1][..i] == vs[..i];
      if !SnapshotValueOk(vs[i], revision, leases) { return None; }
      ValueMapKeys(vs[..i], vs[i].key);
      if vs[i].key in built {
        var j :| 0 <= j < i && vs[..i][j].key == vs[i].key;
        assert vs[j].key == vs[i].key;
        return None;
      }
      built := built[vs[i].key := vs[i]];
    }
    assert vs[..|vs|] == vs;
    return Some(built);
  }

  method CheckCross(s: Snapshot, values: map<Key, KeyValue>, leases: map<int, Lease>) returns (ok: bool)
    ensures ok <==> CrossOk(s, values, leases)
  {
    var rest := leases.Keys;
    while rest != {}
      invariant rest <= leases.Keys
      invariant forall id :: id in leases && id !in rest ==>
        && id < s.nextLease && leases[id].token < s.nextToken
        && forall k :: k in leases[id].keys ==> k in values && values[k].lease == id
      decreases |rest|
    {
      ghost var some := SomeId(rest);
      var id: int :| id in rest;
      if id >= s.nextLease || leases[id].token >= s.nextToken { return false; }
      var keys := leases[id].keys;
      if exists k :: k in keys && !(k in values && values[k].lease == id) { return false; }
      rest := rest - {id};
    }
    return true;
  }

  // ---- Taking and restoring ------------------------------------------------

  lemma {:induction false} ValueMapAt(vs: seq<KeyValue>, i: nat)
    requires i < |vs| && forall a, b :: 0 <= a < b < |vs| ==> vs[a].key != vs[b].key
    ensures vs[i].key in ValueMap(vs) && ValueMap(vs)[vs[i].key] == vs[i]
  {
    var n := |vs| - 1;
    if i < n {
      assert forall a :: 0 <= a < n ==> vs[..n][a] == vs[a];
      ValueMapAt(vs[..n], i);
    }
  }

  lemma {:induction false} LeaseMapAt(rs: seq<LeaseRecord>, i: nat)
    requires i < |rs| && forall a, b :: 0 <= a < b < |rs| ==> rs[a].id != rs[b].id
    ensures rs[i].id in LeaseMap(rs) && LeaseMap(rs)[rs[i].id] == LeaseOf(rs[i])
  {
    var n := |rs| - 1;
    if i < n {
      assert forall a :: 0 <= a < n ==> rs[..n][a] == rs[a];
      LeaseMapAt(rs[..n], i);
    }
  }

  /** Every value is in the list, and the list holds nothing else. */
  lemma TakenValue(d: Data, limits: Limits, k: Key) returns (i: nat)
    requires DataInv(d, limits) && k in d.values
    ensures i < |Take(d).values| && Take(d).values[i] == d.values[k] && d.values[k].key == k
  {
    var keys := Sorted(d.values.Keys);
    assert k in keys;
    i :| 0 <= i < |keys| && keys[i] == k;
  }

  lemma TakenKey(d: Data, limits: Limits, i: nat)
    requires DataInv(d, limits) && i < |Take(d).values|
    ensures Take(d).values[i].key in d.values
  {
    var keys := Sorted(d.values.Keys);
    assert keys[i] in keys;
  }

  lemma RestoredValues(d: Data, limits: Limits)
    requires DataInv(d, limits)
    ensures ValueMap(Take(d).values) == d.values
  {
    hide ValueMap, SnapshotValueOk, DataInv, Take;
    var vs := Take(d).values;
    TakenValuesOk(d, limits);
    forall k | k in d.values ensures k in ValueMap(vs) && ValueMap(vs)[k] == d.values[k] {
      var i := TakenValue(d, limits, k);
      ValueMapAt(vs, i);
    }
    forall k | k in ValueMap(vs) ensures k in d.values {
      ValueMapKeys(vs, k);
      var i :| 0 <= i < |vs| && vs[i].key == k;
      TakenKey(d, limits, i);
    }
  }

  lemma RestoredLease(id: int, l: Lease)
    ensures LeaseOf(RecordOf(id, l)) == l
  {
    assert (set k | k in Sorted(l.keys)) == l.keys;
  }

  lemma TakenLease(d: Data, id: int) returns (i: nat)
    requires id in d.leases
    ensures i < |Take(d).leases| && Take(d).leases[i] == RecordOf(id, d.leases[id])
  {
    var ids := SortedIds(d.leases.Keys);
    assert id in ids;
    i :| 0 <= i < |ids| && ids[i] == id;
  }

  lemma TakenId(d: Data, i: nat)
    requires i < |Take(d).leases|
    ensures Take(d).leases[i].id in d.leases
  {
    var ids := SortedIds(d.leases.Keys);
    assert ids[i] in ids;
  }

  lemma RestoredLeases(d: Data, limits: Limits)
    requires DataInv(d, limits)
    ensures LeaseMap(Take(d).leases) == d.leases
  {
    hide LeaseMap, RecordOk, DataInv, Take, LeaseOf;
    var rs := Take(d).leases;
    TakenRecordsOk(d, limits);
    forall id | id in d.leases ensures id in LeaseMap(rs) && LeaseMap(rs)[id] == d.leases[id] {
      var i := TakenLease(d, id);
      LeaseMapAt(rs, i);
      RestoredLease(id, d.leases[id]);
    }
    forall id | id in LeaseMap(rs) ensures id in d.leases {
      LeaseMapKeys(rs, id);
      var i :| 0 <= i < |rs| && rs[i].id == id;
      TakenId(d, i);
    }
  }

  lemma {:induction false} DistinctLength(ids: seq<int>, s: set<int>)
    requires NoDuplicates(ids) && forall i :: i in ids <==> i in s
    ensures |ids| == |s|
  {
    if ids == [] {
      if s != {} { var i := SomeId(s); }
    } else {
      var n := |ids| - 1;
      assert ids[n] !in ids[..n];
      assert forall i :: i in ids <==> i in ids[..n] || i == ids[n];
      DistinctLength(ids[..n], s - {ids[n]});
    }
  }

  lemma TakenRecordsOk(d: Data, limits: Limits)
    requires DataInv(d, limits)
    ensures RecordsOk(Take(d).leases) && |Take(d).leases| <= limits.maxLeases
  {
    var ids := SortedIds(d.leases.Keys);
    DistinctLength(ids, d.leases.Keys);
    forall i | 0 <= i < |ids| ensures RecordOk(Take(d).leases[i]) {
      assert ids[i] in d.leases;
      TakenRecordOk(d, limits, ids[i]);
    }
  }

  lemma TakenRecordOk(d: Data, limits: Limits, id: int)
    requires DataInv(d, limits) && id in d.leases
    ensures RecordOk(RecordOf(id, d.leases[id]))
  {
    var keys := Sorted(d.leases[id].keys);
    forall i | 0 <= i < |keys| ensures keys[i] != [] {
      assert keys[i] in keys && keys[i] in d.leases[id].keys && keys[i] in d.values;
    }
    AscendingDistinct(keys);
  }

  lemma AscendingDistinct(keys: seq<Key>)
    requires Ascending(keys)
    ensures NoDuplicates(keys)
  {
    forall i, j | 0 <= i < j < |keys| ensures keys[i] != keys[j] {
      LessIrreflexive(keys[i]);
    }
  }

  lemma TakenValuesOk(d: Data, limits: Limits)
    requires DataInv(d, limits)
    ensures SnapshotValuesOk(Take(d).values, d.revision, d.leases)
  {
    var keys := Sorted(d.values.Keys);
    AscendingDistinct(keys);
    forall i | 0 <= i < |keys|
      ensures SnapshotValueOk(Take(d).values[i], d.revision, d.leases) && Take(d).values[i].key == keys[i]
    {
      assert keys[i] in keys && keys[i] in d.values;
    }
  }

  /** The restoring constructor accepts the snapshot of every reachable store under the same
      limits and rebuilds the same data; all later commands therefore answer alike. */
  lemma RestoreUndoesTake(d: Data, limits: Limits)
    requires DataInv(d, limits)
    ensures Acceptable(Take(d), limits) && RestoredData(Take(d)) == d
  {
    hide LeaseMap, ValueMap, RecordsOk, SnapshotValuesOk, Take;
    TakenHeader(d);
    RestoredValues(d, limits);
    RestoredLeases(d, limits);
    TakenRecordsOk(d, limits);
    TakenValuesOk(d, limits);
  }

  lemma TakenHeader(d: Data)
    ensures var s := Take(d);
      s.revision == d.revision && s.tick == d.tick && s.nextLease == d.nextLease && s.nextToken == d.nextToken
  {
  }

  lemma RestoredAnswersAlike(limits: Limits, before: seq<StoreCommand>, after: seq<StoreCommand>, c: StoreCommand)
    ensures var d := After(EMPTY, limits, before);
      && Acceptable(Take(d), limits)
      && Run(After(RestoredData(Take(d)), limits, after), limits, c) == Run(After(d, limits, after), limits, c)
  {
    hide DataInv, Run, Acceptable, After;
    EmptyIsValid(limits);
    AfterKeeps(EMPTY, limits, before);
    RestoreUndoesTake(After(EMPTY, limits, before), limits);
  }

  /** Nothing is listed twice. */
  predicate ListsOnce(s: Snapshot) {
    && (forall i, j :: 0 <= i < j < |s.leases| ==> s.leases[i].id != s.leases[j].id)
    && (forall i, j :: 0 <= i < j < |s.values| ==> s.values[i].key != s.values[j].key)
    && (forall i :: 0 <= i < |s.leases| ==> NoDuplicates(s.leases[i].attached))
  }

  lemma {:induction false} LeaseCount(rs: seq<LeaseRecord>)
    requires forall i, j :: 0 <= i < j < |rs| ==> rs[i].id != rs[j].id
    ensures |LeaseMap(rs)| == |rs|
  {
    if rs != [] {
      var n := |rs| - 1;
      LeaseCount(rs[..n]);
      LeaseMapKeys(rs[..n], rs[n].id);
      assert LeaseMap(rs).Keys == LeaseMap(rs[..n]).Keys + {rs[n].id};
      assert |LeaseMap(rs).Keys| == |LeaseMap(rs[..n]).Keys| + 1;
    }
  }

  /** The restoring constructor accepts exactly the snapshots that list nothing twice and whose data
      satisfies the invariant of a running store. (Versions are 64-bit integers in the code.) */
  lemma AcceptableIff(s: Snapshot, limits: Limits)
    requires forall i :: 0 <= i < |s.values| ==> s.values[i].version <= INT64_MAX
    ensures Acceptable(s, limits) <==> ListsOnce(s) && DataInv(RestoredData(s), limits)
  {
    hide Acceptable, DataInv, ListsOnce;
    if Acceptable(s, limits) { AcceptedIsValid(s, limits); }
    if ListsOnce(s) && DataInv(RestoredData(s), limits) { ValidIsAccepted(s, limits); }
  }

  lemma RestoredParts(s: Snapshot)
    requires ListsOnce(s)
    ensures var d := RestoredData(s);
      && |d.leases| == |s.leases|
      && (forall i :: 0 <= i < |s.leases| ==>
          s.leases[i].id in d.leases && d.leases[s.leases[i].id] == LeaseOf(s.leases[i]))
      && (forall i :: 0 <= i < |s.values| ==> s.values[i].key in d.values && d.values[s.values[i].key] == s.values[i])
      && (forall id :: id in d.leases ==> HasId(s.leases, id)) && (forall k :: k in d.values ==> HasKey(s.values, k))
  {
    LeaseCount(s.leases);
    forall i | 0 <= i < |s.leases|
      ensures s.leases[i].id in LeaseMap(s.leases) && LeaseMap(s.leases)[s.leases[i].id] == LeaseOf(s.leases[i])
    {
      LeaseMapAt(s.leases, i);
    }
    forall i | 0 <= i < |s.values|
      ensures s.values[i].key in ValueMap(s.values) && ValueMap(s.values)[s.values[i].key] == s.values[i]
    {
      ValueMapAt(s.values, i);
    }
    forall id ensures id in LeaseMap(s.leases) ==> HasId(s.leases, id) { LeaseMapKeys(s.leases, id); }
    forall k ensures k in ValueMap(s.values) ==> HasKey(s.values, k) { ValueMapKeys(s.values, k); }
  }

  lemma AcceptedIsValid(s: Snapshot, limits: Limits)
    requires Acceptable(s, limits) && forall i :: 0 <= i < |s.values| ==> s.values[i].version <= INT64_MAX
    ensures ListsOnce(s) && DataInv(RestoredData(s), limits)
  {
    hide LeaseMap, ValueMap, HasId, HasKey;
    RestoredParts(s);
    var d := RestoredData(s);
    forall k | k in d.values
      ensures ValueOk(k, d.values[k], d.revision) && SnapshotValueOk(d.values[k], d.revision, d.leases)
    {
      var i := KeyAt(s.values, k);
      assert SnapshotValueOk(s.values[i], s.revision, d.leases);
    }
    forall id | id in d.leases ensures 0 < id <= MAX_LEASE_ID && d.leases[id].token > 0 && d.leases[id].ttl > 0 {
      var i := IdAt(s.leases, id);
      assert RecordOk(s.leases[i]);
    }
  }

  lemma KeyAt(vs: seq<KeyValue>, k: Key) returns (i: nat)
    requires HasKey(vs, k)
    ensures i < |vs| && vs[i].key == k
  {
    i :| 0 <= i < |vs| && vs[i].key == k;
  }

  lemma IdAt(rs: seq<LeaseRecord>, id: int) returns (i: nat)
    requires HasId(rs, id)
    ensures i < |rs| && rs[i].id == id
  {
    i :| 0 <= i < |rs| && rs[i].id == id;
  }

  lemma ValidIsAccepted(s: Snapshot, limits: Limits)
    requires ListsOnce(s) && DataInv(RestoredData(s), limits)
    ensures Acceptable(s, limits)
  {
    hide LeaseMap, ValueMap, HasId, HasKey;
    RestoredParts(s);
    var d := RestoredData(s);
    forall i | 0 <= i < |s.leases| ensures RecordOk(s.leases[i]) {
      var r := s.leases[i];
      assert d.leases[r.id] == LeaseOf(r);
      forall j | 0 <= j < |r.attached| ensures r.attached[j] != [] {
        var k := r.attached[j];
        assert k in d.leases[r.id].keys && ValueOk(k, d.values[k], d.revision);
      }
    }
    forall i | 0 <= i < |s.values| ensures SnapshotValueOk(s.values[i], s.revision, d.leases) {
      var v := s.values[i];
      assert d.values[v.key] == v && ValueOk(v.key, d.values[v.key], d.revision);
    }
  }
}
