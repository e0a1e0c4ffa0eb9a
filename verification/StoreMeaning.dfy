/** What the single commands mean to a caller, in terms of keys, leases and tokens. The second
    index never shows: a key that loses its lease is simply gone from every lease. */
module StoreMeaning {
  import opened RaftTypes
  import opened ByteCodec
  import opened KeyOrder
  import opened StoreModel
  import opened StoreProofs

  datatype Reply = Failed(error: Error) | Ok(answer: Answer)

  /** What a caller sees of an outcome: the reply, and the data afterwards. */
  function ReplyOf(r: Outcome): Reply {
    if r.Refused? then Failed(r.error) else Ok(r.answer)
  }

  function DataOf(d: Data, r: Outcome): Data {
    if r.Refused? then d else r.data
  }

  /** Every other key is as it was. */
  ghost predicate OthersKept(was: map<Key, KeyValue>, now: map<Key, KeyValue>, key: Key) {
    && (forall k :: k in was && k != key ==> k in now && now[k] == was[k])
    && (forall k :: k in now && k != key ==> k in was)
  }

  /** No lease holds the key any more, and nothing else about the leases has changed. */
  ghost predicate Released(was: map<int, Lease>, now: map<int, Lease>, key: Key) {
    && now.Keys == was.Keys
    && forall id :: id in was ==> now[id] == was[id].(keys := was[id].keys - {key})
  }

  predicate SameCounters(was: Data, now: Data) {
    now.tick == was.tick && now.nextLease == was.nextLease && now.nextToken == was.nextToken
  }

  // ---- Put -----------------------------------------------------------------

  ghost predicate PutMeans(was: Data, key: Key, value: Bytes, reply: Reply, now: Data) {
    var before := Lookup(was.values, key);
    if key == [] then reply == Failed(Invalid) && now == was
    else if was.revision == INT64_MAX || (before.Some? && before.value.version == INT64_MAX) then
      reply == Failed(Exhausted) && now == was
    else
      && now.revision == was.revision + 1 && key in now.values
      && reply == Ok(Wrote(now.values[key], before, now.revision))
      && StoredAs(before, key, value, 0, now.revision, now.values[key])
      && OthersKept(was.values, now.values, key) && Released(was.leases, now.leases, key) && SameCounters(was, now)
  }

  /** The new value continues the versions of the one before it. */
  predicate StoredAs(before: Option<KeyValue>, key: Key, value: Bytes, lease: int, revision: int, v: KeyValue) {
    && v.key == key && v.value == value && v.lease == lease && v.modified == revision
    && (before.None? ==> v.version == 1 && v.created == revision)
    && (before.Some? ==> v.version == before.value.version + 1 && v.created == before.value.created)
  }

  lemma DetachReleases(d: Data, limits: Limits, key: Key)
    requires DataInv(d, limits)
    ensures key in d.values ==>
      Detach(d.leases, d.values[key]).Some? && Released(d.leases, Detach(d.leases, d.values[key]).value, key)
    ensures key !in d.values ==> Released(d.leases, d.leases, key)
  {
    NoLeaseZero(d, limits);
    forall id | id in d.leases && key in d.leases[id].keys ensures key in d.values && d.values[key].lease == id {
    }
    forall id | id in d.leases && key !in d.leases[id].keys ensures d.leases[id].keys - {key} == d.leases[id].keys {
    }
  }

  lemma PutIsMeant(d: Data, limits: Limits, key: Key, value: Bytes)
    requires DataInv(d, limits)
    ensures var r := Run(d, limits, Put(key, value)); PutMeans(d, key, value, ReplyOf(r), DataOf(d, r))
  {
    DetachReleases(d, limits, key);
    hide Detach, DataInv, Released;
  }

  // ---- Erase ---------------------------------------------------------------

  ghost predicate EraseMeans(was: Data, key: Key, reply: Reply, now: Data) {
    if key == [] then reply == Failed(Invalid) && now == was
    else if key !in was.values then reply == Ok(Removed(None, was.revision)) && now == was
    else if was.revision == INT64_MAX then reply == Failed(Exhausted) && now == was
    else
      && now.revision == was.revision + 1 && key !in now.values
      && reply == Ok(Removed(Some(was.values[key]), now.revision))
      && OthersKept(was.values, now.values, key) && Released(was.leases, now.leases, key) && SameCounters(was, now)
  }

  lemma EraseIsMeant(d: Data, limits: Limits, key: Key)
    requires DataInv(d, limits)
    ensures var r := Run(d, limits, Erase(key)); EraseMeans(d, key, ReplyOf(r), DataOf(d, r))
  {
    hide Detach, DataInv, Released, OthersKept;
    DetachReleases(d, limits, key);
    WithoutKeeps(d.values, key);
    var r := DoErase(d, key);
    assert Run(d, limits, Erase(key)) == r;
    hide StoreModel.Run;
  }

  lemma WithoutKeeps(values: map<Key, KeyValue>, key: Key)
    ensures OthersKept(values, values - {key}, key)
  {
  }

  // ---- Compare and set -----------------------------------------------------

  /** The value is stored, as a put would store it, if and only if the caller knows the key's
      modification revision, 0 for a key that is not there; otherwise nothing changes, and the caller
      is shown what is there. */
  ghost predicate CompareAndSetMeans(was: Data, key: Key, expected: int, value: Bytes, reply: Reply, now: Data) {
    if key == [] || expected < 0 then reply == Failed(Invalid) && now == was
    else if key in was.values && was.values[key].modified != expected then
      reply == Ok(Compared(false, Some(was.values[key]), was.revision)) && now == was
    else if key !in was.values && expected != 0 then reply == Ok(Compared(false, None, was.revision)) && now == was
    else
      exists put :: PutMeans(was, key, value, put, now)
        && if put.Failed? then reply == put
           else key in now.values && reply == Ok(Compared(true, Some(now.values[key]), now.revision))
  }

  lemma CompareAndSetIsMeant(d: Data, limits: Limits, key: Key, expected: int, value: Bytes)
    requires DataInv(d, limits)
    ensures var r := Run(d, limits, CompareAndSet(key, expected, value));
      CompareAndSetMeans(d, key, expected, value, ReplyOf(r), DataOf(d, r))
  {
    PutIsMeant(d, limits, key, value);
    if key in d.values { KnownModified(d, limits, key); }
    hide DataInv, OthersKept, Released, SameCounters, Relink;
    var put := ReplyOf(Run(d, limits, Put(key, value)));
    assert key != [] ==> PutMeans(d, key, value, put, DataOf(d, WriteOne(d, key, value)));
  }

  lemma KnownModified(d: Data, limits: Limits, key: Key)
    requires DataInv(d, limits) && key in d.values
    ensures d.values[key].modified > 0
  {
  }

  // ---- Granting ------------------------------------------------------------

  /** The error a grant is refused with, if it is. */
  function GrantError(was: Data, limits: Limits, at: nat, ttl: nat, requested: int): Option<Error> {
    if at < was.tick || ttl == 0 then Some(Invalid)
    else if at + ttl > U64_MAX || was.nextToken >= U64_MAX then Some(Exhausted)
    else if |was.leases| >= limits.maxLeases then Some(Quota)
    else if requested == 0 then (if was.nextLease > MAX_LEASE_ID then Some(Exhausted) else None)
    else if requested < 0 || requested > MAX_LEASE_ID || requested in was.leases then Some(Invalid)
    else None
  }

  /** The granted lease is new: its id is not live, and its token is above every live token. An
      id that the store chooses is above every live id. */
  ghost predicate GrantMeans(was: Data, limits: Limits, at: nat, ttl: nat, requested: int, reply: Reply, now: Data) {
    var error := GrantError(was, limits, at, ttl, requested);
    if error.Some? then reply == Failed(error.value) && now == was
    else
      && reply.Ok? && reply.answer.Granted? && reply.answer.revision == was.revision
      && NewLease(was, reply.answer.id, reply.answer.lease)
      && (requested == 0 ==> forall id :: id in was.leases ==> id < reply.answer.id)
      && (requested != 0 ==> reply.answer.id == requested)
      && reply.answer.lease.ttl == ttl && reply.answer.lease.expiry == at + ttl
      && now == was.(leases := was.leases[reply.answer.id := reply.answer.lease], tick := at,
                     nextLease := now.nextLease, nextToken := now.nextToken)
      && reply.answer.id < now.nextLease && was.nextLease <= now.nextLease && reply.answer.lease.token < now.nextToken
  }

  ghost predicate NewLease(was: Data, id: int, lease: Lease) {
    && id !in was.leases && 0 < id <= MAX_LEASE_ID && lease.keys == {}
    && forall other :: other in was.leases ==> was.leases[other].token < lease.token
  }

  lemma GrantIsMeant(d: Data, limits: Limits, at: nat, ttl: nat, requested: int)
    requires DataInv(d, limits)
    ensures var r := Run(d, limits, Grant(at, ttl, requested));
      GrantMeans(d, limits, at, ttl, requested, ReplyOf(r), DataOf(d, r))
  {
    hide Agree, ValuesOk;
  }

  // ---- Keeping alive -------------------------------------------------------

  predicate Live(d: Data, at: nat, id: int) {
    id in d.leases && at < d.leases[id].expiry
  }

  /** Only the holder of a live lease gets a new deadline, one time-to-live from now; nobody
      else changes anything but the clock. */
  ghost predicate KeepAliveMeans(was: Data, at: nat, id: int, token: nat, reply: Reply, now: Data) {
    if at < was.tick || id <= 0 || token == 0 then reply == Failed(Invalid) && now == was
    else if Live(was, at, id) && was.leases[id].token == token && at + was.leases[id].ttl > U64_MAX then
      reply == Failed(Exhausted) && now == was
    else
      && now.values == was.values && now.revision == was.revision && now.tick == at
      && now.nextLease == was.nextLease && now.nextToken == was.nextToken
      && reply.Ok? && reply.answer.LookedUp? && reply.answer.revision == was.revision
      && (reply.answer.code.NotFound? <==> id !in was.leases)
      && (reply.answer.code.Expired? <==> id in was.leases && !Live(was, at, id))
      && (reply.answer.code.TokenMismatch? <==> Live(was, at, id) && was.leases[id].token != token)
      && now.leases.Keys == was.leases.Keys
      && (forall other :: other in was.leases && other != id ==> now.leases[other] == was.leases[other])
      && (if reply.answer.code.LeaseOk?
          then now.leases[id] == was.leases[id].(expiry := at + was.leases[id].ttl) && Live(now, at, id)
               && reply.answer.found == Some(now.leases[id]) && reply.answer.remaining == was.leases[id].ttl
          else now.leases == was.leases)
  }

  lemma KeepAliveIsMeant(d: Data, limits: Limits, at: nat, id: int, token: nat)
    requires DataInv(d, limits)
    ensures var r := Run(d, limits, KeepAlive(at, id, token));
      KeepAliveMeans(d, at, id, token, ReplyOf(r), DataOf(d, r))
  {
    hide Agree, ValuesOk;
  }

  // ---- Revoking ------------------------------------------------------------

  /** The keys that carry the lease are deleted at one revision, in key order, and nothing else
      is; without the right token nothing happens but the clock. */
  ghost predicate RevokeMeans(was: Data, at: nat, id: int, token: nat, reply: Reply, now: Data) {
    if at < was.tick || id <= 0 || token == 0 then reply == Failed(Invalid) && now == was
    else if id !in was.leases || was.leases[id].token != token then
      && now == was.(tick := at)
      && reply == Ok(Cleaned(if id in was.leases then TokenMismatch else NotFound, {}, [], was.revision))
    else if was.revision == INT64_MAX then reply == Failed(Exhausted) && now == was
    else
      && now.revision == was.revision + 1 && now.tick == at
      && now.nextLease == was.nextLease && now.nextToken == was.nextToken
      && now.leases == was.leases - {id}
      && (forall k :: k in now.values <==> k in was.values && was.values[k].lease != id)
      && (forall k :: k in now.values ==> now.values[k] == was.values[k])
      && reply.Ok? && reply.answer.Cleaned? && reply.answer.code.LeaseOk? && reply.answer.ids == {id}
      && reply.answer.revision == now.revision
      && DeletedFor(was.values, id, reply.answer.deleted)
  }

  /** Exactly the values that carry the lease, once each, in key order. */
  ghost predicate DeletedFor(values: map<Key, KeyValue>, id: int, deleted: seq<KeyValue>) {
    && (forall i :: 0 <= i < |deleted| ==> deleted[i].lease == id && Lookup(values, deleted[i].key) == Some(deleted[i]))
    && (forall k :: k in values && values[k].lease == id ==> values[k] in deleted)
    && (forall i, j :: 0 <= i < j < |deleted| ==> Less(deleted[i].key, deleted[j].key))
  }

  lemma RevokeIsMeant(d: Data, limits: Limits, at: nat, id: int, token: nat)
    requires DataInv(d, limits)
    ensures var r := Run(d, limits, Revoke(at, id, token)); RevokeMeans(d, at, id, token, ReplyOf(r), DataOf(d, r))
  {
    hide DataInv, RemoveLeases, DeletedFor;
    if id in d.leases {
      RemovalIsMeant(d, limits, at, id);
    }
  }

  lemma RemovalIsMeant(d: Data, limits: Limits, at: nat, id: int)
    requires DataInv(d, limits) && id in d.leases
    ensures var r := RemoveLeases(d, {id}, at);
      if d.revision == INT64_MAX then r == Refused(Exhausted)
      else
        && r.Done? && r.data == d.(values := r.data.values, leases := d.leases - {id}, revision :=
            d.revision + 1, tick := at)
        && (forall k :: k in r.data.values <==> k in d.values && d.values[k].lease != id)
        && (forall k :: k in r.data.values ==> r.data.values[k] == d.values[k])
        && r.answer.Cleaned? && DeletedFor(d.values, id, r.answer.deleted)
        && r.answer == Cleaned(LeaseOk, {id}, r.answer.deleted, d.revision + 1)
  {
    hide DataInv, AttachedTo, CleanupConsistent, DeletedFor, Erasures;
    CarriedKeys(d, limits, id);
    DeletedAreCarried(d, limits, id);
  }

  lemma DeletedAreCarried(d: Data, limits: Limits, id: int)
    requires DataInv(d, limits) && id in d.leases
    ensures var keys := AttachedTo(d.leases, {id});
      (forall k :: k in keys ==> k in d.values) && DeletedFor(d.values, id, Listed(d.values, Sorted(keys)))
  {
    hide DataInv, AttachedTo, Less;
    CarriedKeys(d, limits, id);
    var listed := Sorted(AttachedTo(d.leases, {id}));
    var deleted := Listed(d.values, listed);
    forall k | k in d.values && d.values[k].lease == id ensures d.values[k] in deleted {
      var i :| 0 <= i < |listed| && listed[i] == k;
      assert deleted[i] == d.values[k];
    }
    forall i | 0 <= i < |deleted|
      ensures deleted[i].lease == id && deleted[i].key == listed[i]
      ensures Lookup(d.values, deleted[i].key) == Some(deleted[i])
    {
      assert listed[i] in listed;
    }
  }

  /** The keys attached to a lease are the keys that carry it. */
  lemma CarriedKeys(d: Data, limits: Limits, id: int)
    requires DataInv(d, limits) && id in d.leases
    ensures CleanupConsistent(d, {id})
    ensures forall k :: k in AttachedTo(d.leases, {id}) <==> k in d.values && d.values[k].lease == id
    ensures forall k :: k in d.values ==> d.values[k].key == k
  {
    NoLeaseZero(d, limits);
  }

  // ---- Expiry and reading --------------------------------------------------

  predicate AnyDue(d: Data, at: nat) {
    exists id :: id in d.leases && !Live(d, at, id)
  }

  predicate Untouched(d: Data, at: nat, v: KeyValue) {
    v.lease == 0 || Live(d, at, v.lease)
  }

  /** The leases whose deadline has come go, the live ones stay as they are, and exactly the keys that
      carry a lease that goes are deleted with it, in key order, at one revision. */
  ghost predicate ExpireMeans(was: Data, at: nat, reply: Reply, now: Data) {
    if at < was.tick then reply == Failed(Invalid) && now == was
    else if AnyDue(was, at) && was.revision == INT64_MAX then
      reply == Failed(Exhausted) && now == was
    else
      && now.tick == at && now.nextLease == was.nextLease && now.nextToken == was.nextToken
      && (forall id :: id in now.leases <==> Live(was, at, id))
      && (forall id :: id in now.leases ==> now.leases[id] == was.leases[id])
      && (forall k :: k in now.values <==> k in was.values && Untouched(was, at, was.values[k]))
      && (forall k :: k in now.values ==> now.values[k] == was.values[k])
      && now.revision == was.revision + (if AnyDue(was, at) then 1 else 0)
      && reply.Ok? && reply.answer.Cleaned? && reply.answer.code.LeaseOk? && reply.answer.revision == now.revision
      && (forall id :: id in reply.answer.ids <==> id in was.leases && !Live(was, at, id))
      && DeletedWith(was.values, reply.answer.ids, reply.answer.deleted)
  }

  /** Exactly the values that carry one of the leases, once each, in key order. */
  ghost predicate DeletedWith(values: map<Key, KeyValue>, ids: set<int>, deleted: seq<KeyValue>) {
    && (forall i :: 0 <= i < |deleted| ==>
        deleted[i].lease in ids && Lookup(values, deleted[i].key) == Some(deleted[i]))
    && (forall k :: k in values && values[k].lease in ids ==> values[k] in deleted)
    && (forall i, j :: 0 <= i < j < |deleted| ==> Less(deleted[i].key, deleted[j].key))
  }

  lemma ExpireIsMeant(d: Data, limits: Limits, at: nat)
    requires DataInv(d, limits)
    ensures var r := Run(d, limits, Expire(at)); ExpireMeans(d, at, ReplyOf(r), DataOf(d, r))
  {
    hide DataInv, RemoveLeases, DeletedWith, ExpiredIds, AnyDue;
    var ids := ExpiredIds(d.leases, at);
    DueIds(d, at);
    if at >= d.tick {
      CleanupExact(d, limits, ids, at);
      CleanupAnswer(d, limits, ids, at);
      CarriesLive(d, limits);
    }
  }

  lemma DueIds(d: Data, at: nat)
    ensures ExpiredIds(d.leases, at) <= d.leases.Keys
    ensures forall id :: id in ExpiredIds(d.leases, at) <==> id in d.leases && !Live(d, at, id)
    ensures ExpiredIds(d.leases, at) != {} <==> AnyDue(d, at)
  {
    var ids := ExpiredIds(d.leases, at);
    if AnyDue(d, at) {
      var id :| id in d.leases && !Live(d, at, id);
      assert id in ids;
    } else {
      assert forall id :: id in d.leases ==> Live(d, at, id);
      assert forall id :: id !in ids;
    }
  }

  lemma CarriesLive(d: Data, limits: Limits)
    requires DataInv(d, limits)
    ensures forall k :: k in d.values && d.values[k].lease != 0 ==> d.values[k].lease in d.leases
    ensures 0 !in d.leases
  {
  }

  lemma CleanupAnswer(d: Data, limits: Limits, ids: set<int>, at: nat)
    requires DataInv(d, limits) && ids <= d.leases.Keys
    ensures var r := RemoveLeases(d, ids, at);
      if ids != {} && d.revision == INT64_MAX then r == Refused(Exhausted)
      else
        && r.Done?
        && r.data == d.(values := r.data.values, leases := r.data.leases, revision := r.data.revision, tick := at)
        && r.answer == Cleaned(LeaseOk, ids, r.answer.deleted, r.data.revision)
        && DeletedWith(d.values, ids, r.answer.deleted)
  {
    hide DataInv, CleanupConsistent, AttachedTo, DeletedWith, Erasures;
    CarriedBy(d, limits, ids);
    ListedWith(d, ids);
  }

  lemma ListedWith(d: Data, ids: set<int>)
    requires forall k :: k in AttachedTo(d.leases, ids) <==> k in d.values && d.values[k].lease in ids
    requires forall k :: k in d.values ==> d.values[k].key == k
    ensures DeletedWith(d.values, ids, Listed(d.values, Sorted(AttachedTo(d.leases, ids))))
  {
    hide AttachedTo, Less;
    var listed := Sorted(AttachedTo(d.leases, ids));
    var deleted := Listed(d.values, listed);
    forall k | k in d.values && d.values[k].lease in ids ensures d.values[k] in deleted {
      var i :| 0 <= i < |listed| && listed[i] == k;
      assert deleted[i] == d.values[k];
    }
    forall i | 0 <= i < |deleted|
      ensures deleted[i].lease in ids && deleted[i].key == listed[i]
      ensures Lookup(d.values, deleted[i].key) == Some(deleted[i])
    {
      assert listed[i] in listed;
    }
  }

  lemma CarriedBy(d: Data, limits: Limits, ids: set<int>)
    requires DataInv(d, limits) && ids <= d.leases.Keys
    ensures CleanupConsistent(d, ids)
    ensures forall k :: k in AttachedTo(d.leases, ids) <==> k in d.values && d.values[k].lease in ids
    ensures forall k :: k in d.values ==> d.values[k].key == k
  {
    NoLeaseZero(d, limits);
    forall k | k in d.values && d.values[k].lease in ids ensures k in AttachedTo(d.leases, ids) {
      assert k in d.leases[d.values[k].lease].keys;
    }
  }

  /** Reading a key or a lease shows what is there, and changes nothing. */
  lemma ReadsAreMeant(d: Data, limits: Limits, key: Key, at: nat, id: int)
    ensures var r := Run(d, limits, Get(key));
      if key == [] then r == Refused(Invalid)
      else r == Done(d, Found(if key in d.values then Some(d.values[key]) else None, d.revision), None)
    ensures var r := Run(d, limits, TimeToLive(at, id));
      if at < d.tick || id <= 0 then r == Refused(Invalid)
      else if id !in d.leases then r == Done(d, LookedUp(NotFound, None, 0, d.revision), None)
      else if Live(d, at, id) then
        && r.Done? && r.data == d && r.events.None?
        && r.answer == LookedUp(LeaseOk, Some(d.leases[id]), r.answer.remaining, d.revision)
        && at + r.answer.remaining == d.leases[id].expiry
      else r == Done(d, LookedUp(Expired, Some(d.leases[id]), 0, d.revision), None)
  {
  }
}
