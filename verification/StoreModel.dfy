/** The transactional store without its watches: keys, leases, logical time and counters, and
    what every command does to them. */
module StoreModel {
  import opened RaftTypes
  import opened ByteCodec
  import opened KeyOrder

  const INT64_MAX: int := 0x7FFF_FFFF_FFFF_FFFF
  const MAX_LEASE_ID: int := INT64_MAX - 1

  datatype KeyValue = KeyValue(
    key: Key, value: Bytes, version: int, created: int, modified: int, lease: int)

  datatype Lease = Lease(token: nat, ttl: nat, expiry: nat, keys: set<Key>)

  /** One change of one key. */
  datatype Event = Stored(current: KeyValue, before: Option<KeyValue>) | Erased(previous: KeyValue)

  datatype Data = Data(
    values: map<Key, KeyValue>, leases: map<int, Lease>, revision: int,
    tick: nat, nextLease: int, nextToken: nat)

  datatype Limits = Limits(maxLeases: nat, maxHistory: nat, maxPending: nat, maxWatchers: nat)

  /** `Corrupt` is the code's `logic_error`: an index that should agree does not. */
  datatype Error = Invalid | Exhausted | Quota | Corrupt

  // ---- Requests and answers ------------------------------------------------

  datatype Target = Version | Created | Modified | LeaseId | Value
  datatype Operand = Number(number: int) | Text(text: Bytes)
  datatype Relation = Equal | NotEqual | Greater | Lesser
  datatype Compare = Compare(key: Key, target: Target, relation: Relation, expected: Operand)
  datatype Ownership = Ownership(id: int, token: nat)

  datatype Op =
    | RangeOp(range: KeyRange, limit: nat, at: int)
    | PutOp(key: Key, value: Bytes, lease: int, wantPrevious: bool)
    | DeleteOp(range: KeyRange, wantPrevious: bool)

  datatype Txn = Txn(
    comparisons: seq<Compare>, ownership: seq<Ownership>, tick: nat, success: seq<Op>, failure: seq<Op>)

  datatype StoreCommand =
    | Put(key: Key, value: Bytes)
    | Erase(key: Key)
    | CompareAndSet(key: Key, expected: int, value: Bytes)
    | Transact(txn: Txn)
    | Grant(tick: nat, ttl: nat, requested: int)
    | KeepAlive(tick: nat, id: int, token: nat)
    | Revoke(tick: nat, id: int, token: nat)
    | Expire(tick: nat)
    | Get(key: Key)
    | TimeToLive(tick: nat, id: int)

  datatype Response =
    | RangeResponse(found: seq<KeyValue>, revision: int)
    | PutResponse(current: KeyValue, before: Option<KeyValue>, revision: int)
    | DeleteResponse(count: nat, removed: seq<KeyValue>, revision: int)

  datatype LeaseCode = LeaseOk | NotFound | Expired | TokenMismatch

  datatype Answer =
    | Wrote(current: KeyValue, before: Option<KeyValue>, revision: int)
    | Removed(previous: Option<KeyValue>, revision: int)
    | Compared(succeeded: bool, now: Option<KeyValue>, revision: int)
    | Transacted(succeeded: bool, revision: int, responses: seq<Response>)
    | Granted(id: int, lease: Lease, revision: int)
    | LookedUp(code: LeaseCode, found: Option<Lease>, remaining: nat, revision: int)
    | Cleaned(code: LeaseCode, ids: set<int>, deleted: seq<KeyValue>, revision: int)
    | Found(value: Option<KeyValue>, revision: int)

  /** `events` is set exactly when the revision rises; they all carry the new revision. */
  datatype Outcome =
    | Refused(error: Error)
    | Done(data: Data, answer: Answer, events: Option<seq<Event>>)

  // ---- The two indexes -----------------------------------------------------

  function Detach(leases: map<int, Lease>, v: KeyValue): Option<map<int, Lease>> {
    if v.lease == 0 then Some(leases)
    else if v.lease !in leases || v.key !in leases[v.lease].keys then None
    else Some(leases[v.lease := leases[v.lease].(keys := leases[v.lease].keys - {v.key})])
  }

  function Attach(leases: map<int, Lease>, id: int, key: Key): Option<map<int, Lease>> {
    if id !in leases || key in leases[id].keys then None
    else Some(leases[id := leases[id].(keys := leases[id].keys + {key})])
  }

  function Lookup(values: map<Key, KeyValue>, key: Key): Option<KeyValue> {
    if key in values then Some(values[key]) else None
  }

  /** The value a put stores. */
  function NextValue(before: Option<KeyValue>, key: Key, value: Bytes, lease: int, revision: int): KeyValue {
    KeyValue(key, value, if before.Some? then before.value.version + 1 else 1,
             if before.Some? then before.value.created else revision, revision, lease)
  }

  function Relink(leases: map<int, Lease>, before: Option<KeyValue>, key: Key, lease: int): Option<map<int, Lease>> {
    var freed := if before.Some? then Detach(leases, before.value) else Some(leases);
    if freed.None? then None
    else if lease == 0 then freed
    else Attach(freed.value, lease, key)
  }

  // ---- Single-key commands -------------------------------------------------

  function WriteOne(d: Data, key: Key, value: Bytes): Outcome {
    var before := Lookup(d.values, key);
    if d.revision == INT64_MAX then Refused(Exhausted)
    else if before.Some? && before.value.version == INT64_MAX then Refused(Exhausted)
    else
      var revision := d.revision + 1;
      var current := NextValue(before, key, value, 0, revision);
      var leases := Relink(d.leases, before, key, 0);
      if leases.None? then Refused(Corrupt)
      else Done(d.(values := d.values[key := current], leases := leases.value, revision := revision),
                Wrote(current, before, revision), Some([Stored(current, before)]))
  }

  function DoPut(d: Data, key: Key, value: Bytes): Outcome {
    if key == [] then Refused(Invalid) else WriteOne(d, key, value)
  }

  function DoErase(d: Data, key: Key): Outcome {
    if key == [] then Refused(Invalid)
    else if key !in d.values then Done(d, Removed(None, d.revision), None)
    else if d.revision == INT64_MAX then Refused(Exhausted)
    else
      var previous := d.values[key];
      var leases := Detach(d.leases, previous);
      if leases.None? then Refused(Corrupt)
      else Done(d.(values := d.values - {key}, leases := leases.value, revision := d.revision + 1),
                Removed(Some(previous), d.revision + 1), Some([Erased(previous)]))
  }

  function DoCompareAndSet(d: Data, key: Key, expected: int, value: Bytes): Outcome {
    if key == [] || expected < 0 then Refused(Invalid)
    else
      var now := Lookup(d.values, key);
      if expected != (if now.Some? then now.value.modified else 0) then
        Done(d, Compared(false, now, d.revision), None)
      else
        var r := WriteOne(d, key, value);
        if r.Refused? then r
        else Done(r.data, Compared(true, Some(r.answer.current), r.data.revision), r.events)
  }

  // ---- Transactions: comparisons and ownership -----------------------------

  predicate Relates(relation: Relation, equal: bool, greater: bool) {
    match relation
    case Equal => equal
    case NotEqual => !equal
    case Greater => greater && !equal
    case Lesser => !greater && !equal
  }

  function Actual(v: Option<KeyValue>, target: Target): int {
    if v.None? then 0
    else
      match target
      case Version => v.value.version
      case Created => v.value.created
      case Modified => v.value.modified
      case LeaseId => v.value.lease
      case Value => 0
  }

  /** None where the code throws. */
  function Holds(values: map<Key, KeyValue>, c: Compare): Option<bool> {
    var v := Lookup(values, c.key);
    if c.key == [] then None
    else if c.target.Value? then
      if !c.expected.Text? then None
      else
        var actual := if v.Some? then v.value.value else [];
        Some(Relates(c.relation, actual == c.expected.text, Less(c.expected.text, actual)))
    else if !c.expected.Number? then None
    else
      var actual := Actual(v, c.target);
      Some(Relates(c.relation, actual == c.expected.number, actual > c.expected.number))
  }

  function AllHold(values: map<Key, KeyValue>, cs: seq<Compare>): Option<bool> {
    if cs == [] then Some(true)
    else
      var front := AllHold(values, cs[..|cs| - 1]);
      var last := Holds(values, cs[|cs| - 1]);
      if front.None? || last.None? then None else Some(front.value && last.value)
  }

  predicate Owns(leases: map<int, Lease>, tick: nat, o: Ownership) {
    o.id in leases && tick < leases[o.id].expiry && leases[o.id].token == o.token
  }

  predicate OwnershipsOk(os: seq<Ownership>) {
    forall i :: 0 <= i < |os| ==> 0 < os[i].id && os[i].token != 0
  }

  predicate OwnsAll(leases: map<int, Lease>, tick: nat, os: seq<Ownership>) {
    forall i :: 0 <= i < |os| ==> Owns(leases, tick, os[i])
  }

  function Verified(leases: map<int, Lease>, tick: nat, os: seq<Ownership>): set<int> {
    set o | o in os && Owns(leases, tick, o) :: o.id
  }

  // ---- Transactions: the first pass ----------------------------------------

  datatype Plan = Plan(puts: set<Key>, deletes: set<KeyRange>, effective: bool)

  predicate RangeOk(r: KeyRange) {
    r.start != [] && r.end != [] && Less(r.start, r.end)
  }

  function KeysIn(values: map<Key, KeyValue>, r: KeyRange): set<Key> {
    set k | k in values && InRange(r, k)
  }

  /** The error of one operation, given the plan of the operations before it. */
  function PlanError(values: map<Key, KeyValue>, verified: set<int>, p: Plan, op: Op): Option<Error> {
    match op
    case RangeOp(range, _, at) => if !RangeOk(range) || at != 0 then Some(Invalid) else None
    case PutOp(key, _, lease, _) =>
      if key == [] || lease < 0 || (lease != 0 && lease !in verified) || key in p.puts
         || (exists r :: r in p.deletes && InRange(r, key)) then Some(Invalid)
      else if key in values && values[key].version == INT64_MAX then Some(Exhausted)
      else None
    case DeleteOp(range, _) =>
      if !RangeOk(range) || (exists r :: r in p.deletes && Overlap(r, range))
         || (exists k :: k in p.puts && InRange(range, k)) then Some(Invalid)
      else None
  }

  function PlanNext(values: map<Key, KeyValue>, p: Plan, op: Op): Plan {
    match op
    case RangeOp(_, _, _) => p
    case PutOp(key, _, _, _) => p.(puts := p.puts + {key}, effective := true)
    case DeleteOp(range, _) =>
      p.(deletes := p.deletes + {range}, effective := p.effective || KeysIn(values, range) != {})
  }

  datatype Planned = Bad(error: Error) | Good(plan: Plan)

  function PlanAll(values: map<Key, KeyValue>, verified: set<int>, ops: seq<Op>): Planned {
    if ops == [] then Good(Plan({}, {}, false))
    else
      var front := PlanAll(values, verified, ops[..|ops| - 1]);
      if front.Bad? then front
      else
        var error := PlanError(values, verified, front.plan, ops[|ops| - 1]);
        if error.Some? then Bad(error.value) else Good(PlanNext(values, front.plan, ops[|ops| - 1]))
  }

  // ---- Transactions: the second pass ---------------------------------------

  datatype Work = Work(
    values: map<Key, KeyValue>, leases: map<int, Lease>, events: seq<Event>, responses: seq<Response>)

  function Listed(values: map<Key, KeyValue>, keys: seq<Key>): (out: seq<KeyValue>)
    requires forall k :: k in keys ==> k in values
    ensures |out| == |keys| && forall i :: 0 <= i < |keys| ==> out[i] == values[keys[i]]
  {
    seq(|keys|, i requires 0 <= i < |keys| => values[keys[i]])
  }

  function Erasures(values: seq<KeyValue>): (out: seq<Event>)
    ensures |out| == |values| && forall i :: 0 <= i < |values| ==> out[i] == Erased(values[i])
  {
    seq(|values|, i requires 0 <= i < |values| => Erased(values[i]))
  }

  function DetachAll(leases: map<int, Lease>, values: seq<KeyValue>): Option<map<int, Lease>> {
    if values == [] then Some(leases)
    else
      var front := DetachAll(leases, values[..|values| - 1]);
      if front.None? then None else Detach(front.value, values[|values| - 1])
  }

  function Limited(values: seq<KeyValue>, limit: nat): seq<KeyValue> {
    if limit != 0 && limit < |values| then values[..limit] else values
  }

  function Execute(w: Work, revision: int, op: Op): Option<Work> {
    match op
    case RangeOp(range, limit, _) =>
      var found := Limited(Listed(w.values, Sorted(KeysIn(w.values, range))), limit);
      Some(w.(responses := w.responses + [RangeResponse(found, revision)]))
    case PutOp(key, value, lease, wantPrevious) =>
      var before := Lookup(w.values, key);
      var current := NextValue(before, key, value, lease, revision);
      var leases := Relink(w.leases, before, key, lease);
      if leases.None? then None
      else Some(Work(w.values[key := current], leases.value, w.events + [Stored(current, before)],
                     w.responses + [PutResponse(current, if wantPrevious then before else None, revision)]))
    case DeleteOp(range, wantPrevious) =>
      var keys := KeysIn(w.values, range);
      var removed := Listed(w.values, Sorted(keys));
      var leases := DetachAll(w.leases, removed);
      if leases.None? then None
      else Some(Work(w.values - keys, leases.value, w.events + Erasures(removed),
                     w.responses + [DeleteResponse(|removed|, if wantPrevious then removed else [], revision)]))
  }

  function ExecuteAll(values: map<Key, KeyValue>, leases: map<int, Lease>, revision: int, ops: seq<Op>): Option<Work> {
    if ops == [] then Some(Work(values, leases, [], []))
    else
      var front := ExecuteAll(values, leases, revision, ops[..|ops| - 1]);
      if front.None? then None else Execute(front.value, revision, ops[|ops| - 1])
  }

  predicate Succeeds(d: Data, t: Txn, holds: bool) {
    holds && OwnsAll(d.leases, t.tick, t.ownership)
  }

  function Branch(d: Data, t: Txn, holds: bool): seq<Op> {
    if Succeeds(d, t, holds) then t.success else t.failure
  }

  function DoTransact(d: Data, t: Txn): Outcome {
    var holds := AllHold(d.values, t.comparisons);
    if holds.None? then Refused(Invalid)
    else if t.ownership != [] && t.tick < d.tick then Refused(Invalid)
    else if !OwnershipsOk(t.ownership) then Refused(Invalid)
    else
      var ops := Branch(d, t, holds.value);
      var planned := PlanAll(d.values, Verified(d.leases, t.tick, t.ownership), ops);
      if planned.Bad? then Refused(planned.error)
      else if planned.plan.effective && d.revision == INT64_MAX then Refused(Exhausted)
      else
        var revision := if planned.plan.effective then d.revision + 1 else d.revision;
        var work := ExecuteAll(d.values, d.leases, revision, ops);
        if work.None? then Refused(Corrupt)
        else Done(d.(values := work.value.values, leases := work.value.leases, revision := revision,
                     tick := if t.ownership != [] then t.tick else d.tick),
                  Transacted(Succeeds(d, t, holds.value), revision, work.value.responses),
                  if planned.plan.effective then Some(work.value.events) else None)
  }

  // ---- Leases --------------------------------------------------------------

  function DoGrant(d: Data, limits: Limits, tick: nat, ttl: nat, requested: int): Outcome {
    if tick < d.tick || ttl == 0 then Refused(Invalid)
    else if tick + ttl > U64_MAX then Refused(Exhausted)
    else if d.nextToken >= U64_MAX then Refused(Exhausted)
    else if |d.leases| >= limits.maxLeases then Refused(Quota)
    else if requested == 0 && d.nextLease > MAX_LEASE_ID then Refused(Exhausted)
    else if requested < 0 || requested > MAX_LEASE_ID then Refused(Invalid)
    else
      var id := if requested == 0 then d.nextLease else requested;
      if id in d.leases then Refused(Invalid)
      else
        var lease := Lease(d.nextToken, ttl, tick + ttl, {});
        Done(d.(leases := d.leases[id := lease], nextToken := d.nextToken + 1, tick := tick,
                nextLease := if id >= d.nextLease then id + 1 else d.nextLease),
             Granted(id, lease, d.revision), None)
  }

  function LookupLease(d: Data, id: int, tick: nat): Answer {
    if id !in d.leases then LookedUp(NotFound, None, 0, d.revision)
    else
      var lease := d.leases[id];
      if tick >= lease.expiry then LookedUp(Expired, Some(lease), 0, d.revision)
      else LookedUp(LeaseOk, Some(lease), lease.expiry - tick, d.revision)
  }

  function DoKeepAlive(d: Data, tick: nat, id: int, token: nat): Outcome {
    if tick < d.tick || id <= 0 || token == 0 then Refused(Invalid)
    else
      var found := LookupLease(d, id, tick);
      if !found.code.LeaseOk? then Done(d.(tick := tick), found, None)
      else if d.leases[id].token != token then
        Done(d.(tick := tick), LookedUp(TokenMismatch, found.found, found.remaining, found.revision), None)
      else if tick + d.leases[id].ttl > U64_MAX then Refused(Exhausted)
      else
        var lease := d.leases[id].(expiry := tick + d.leases[id].ttl);
        Done(d.(leases := d.leases[id := lease], tick := tick),
             LookedUp(LeaseOk, Some(lease), lease.ttl, d.revision), None)
  }

  /** The keys attached to the leases. */
  function AttachedTo(leases: map<int, Lease>, ids: set<int>): set<Key> {
    set id, k | id in ids && id in leases && k in leases[id].keys :: k
  }

  predicate CleanupConsistent(d: Data, ids: set<int>) {
    forall id, k :: id in ids && id in d.leases && k in d.leases[id].keys ==>
      k in d.values && d.values[k].lease == id
  }

  function RemoveLeases(d: Data, ids: set<int>, tick: nat): Outcome
    requires ids <= d.leases.Keys
  {
    if !CleanupConsistent(d, ids) then Refused(Corrupt)
    else if ids != {} && d.revision == INT64_MAX then Refused(Exhausted)
    else
      var keys := AttachedTo(d.leases, ids);
      var deleted := Listed(d.values, Sorted(keys));
      var revision := if ids == {} then d.revision else d.revision + 1;
      Done(d.(values := d.values - keys, leases := d.leases - ids, revision := revision, tick := tick),
           Cleaned(LeaseOk, ids, deleted, revision),
           if ids == {} then None else Some(Erasures(deleted)))
  }

  function DoRevoke(d: Data, tick: nat, id: int, token: nat): Outcome {
    if tick < d.tick || id <= 0 || token == 0 then Refused(Invalid)
    else if id !in d.leases then Done(d.(tick := tick), Cleaned(NotFound, {}, [], d.revision), None)
    else if d.leases[id].token != token then
      Done(d.(tick := tick), Cleaned(TokenMismatch, {}, [], d.revision), None)
    else RemoveLeases(d, {id}, tick)
  }

  function ExpiredIds(leases: map<int, Lease>, tick: nat): set<int> {
    set id | id in leases && leases[id].expiry <= tick
  }

  function DoExpire(d: Data, tick: nat): Outcome {
    if tick < d.tick then Refused(Invalid)
    else RemoveLeases(d, ExpiredIds(d.leases, tick), tick)
  }

  // ---- Any command ---------------------------------------------------------

  /** A refused command leaves the store unchanged. */
  function Run(d: Data, limits: Limits, c: StoreCommand): Outcome {
    match c
    case Put(key, value) => DoPut(d, key, value)
    case Erase(key) => DoErase(d, key)
    case CompareAndSet(key, expected, value) => DoCompareAndSet(d, key, expected, value)
    case Transact(t) => DoTransact(d, t)
    case Grant(tick, ttl, requested) => DoGrant(d, limits, tick, ttl, requested)
    case KeepAlive(tick, id, token) => DoKeepAlive(d, tick, id, token)
    case Revoke(tick, id, token) => DoRevoke(d, tick, id, token)
    case Expire(tick) => DoExpire(d, tick)
    case Get(key) =>
      if key == [] then Refused(Invalid) else Done(d, Found(Lookup(d.values, key), d.revision), None)
    case TimeToLive(tick, id) =>
      if tick < d.tick || id <= 0 then Refused(Invalid) else Done(d, LookupLease(d, id, tick), None)
  }

  const EMPTY: Data := Data(map[], map[], 0, 0, 1, 1)
}
