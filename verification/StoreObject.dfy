/** `InMemoryMetadataStore` as the object it is: every method works on copies and swaps them in
    at the end, so a refusal leaves the fields alone. Each is proved against `StoreModel.Run`
    and the watch functions of `StoreWatch`. */
module StoreObject {
  import opened RaftTypes
  import opened ByteCodec
  import opened KeyOrder
  import opened StoreModel
  import opened StoreProofs
  import opened StoreMeaning
  import opened StoreTransaction
  import opened StoreRuns
  import opened StoreWatch

  /** The reply, the new data and the new feed are those of the command; a mutation is published
      to the watches as one batch at the new revision. */
  predicate Follows(was: Data, feed: Feed, limits: Limits, r: StoreModel.Outcome, reply: Reply, now: Data,
                    after: Feed) {
    match r
    case Refused(error) => reply == Failed(error) && now == was && after == feed
    case Done(data, answer, events) =>
      && reply == Ok(answer) && now == data
      && after == if events.Some? then Publish(feed, Batch(data.revision, events.value), limits) else feed
  }

  // ---- Loops over lists ----------------------------------------------------

  method SelectMatching(r: WatchRequest, events: seq<Event>) returns (matching: seq<Event>)
    ensures matching == Matching(r, events)
  {
    matching := [];
    for i := 0 to |events|
      invariant matching == Matching(r, events[..i])
    {
      assert events[..i + 1][..i] == events[..i];
      if Interested(r, events[i]) { matching := matching + [events[i]]; }
    }
    assert events[..|events|] == events;
  }

  method CheckComparisons(values: map<Key, KeyValue>, cs: seq<Compare>) returns (holds: Option<bool>)
    ensures holds == AllHold(values, cs)
  {
    hide Holds;
    var all := true;
    for i := 0 to |cs|
      invariant AllHold(values, cs[..i]) == Some(all)
    {
      assert cs[..i + 1][..i] == cs[..i];
      var one := Holds(values, cs[i]);
      if one.None? {
        NoneStays(values, cs, i + 1);
        return None;
      }
      all := all && one.value;
    }
    assert cs[..|cs|] == cs;
    return Some(all);
  }

  lemma {:induction false} NoneStays(values: map<Key, KeyValue>, cs: seq<Compare>, i: nat)
    requires i <= |cs| && AllHold(values, cs[..i]).None?
    ensures AllHold(values, cs).None?
    decreases |cs| - i
  {
    hide Holds;
    if i == |cs| {
      assert cs[..i] == cs;
    } else {
      assert cs[..i + 1][..i] == cs[..i];
      NoneStays(values, cs, i + 1);
    }
  }

  method CheckOwnership(leases: map<int, Lease>, tick: nat, os: seq<Ownership>)
    returns (ok: bool, all: bool, verified: set<int>)
    ensures ok <==> OwnershipsOk(os)
    ensures ok ==> (all <==> OwnsAll(leases, tick, os)) && verified == Verified(leases, tick, os)
  {
    ok, all, verified := true, true, {};
    for i := 0 to |os|
      invariant OwnershipsOk(os[..i])
      invariant all <==> OwnsAll(leases, tick, os[..i])
      invariant verified == Verified(leases, tick, os[..i])
    {
      assert os[..i + 1] == os[..i] + [os[i]];
      if os[i].id <= 0 || os[i].token == 0 {
        return false, all, verified;
      }
      if Owns(leases, tick, os[i]) {
        verified := verified + {os[i].id};
      } else {
        all := false;
      }
    }
    assert os[..|os|] == os;
  }

  /** The first pass: validation, and whether anything will change. */
  method PlanOperations(values: map<Key, KeyValue>, verified: set<int>, ops: seq<Op>) returns (planned: Planned)
    ensures planned == PlanAll(values, verified, ops)
  {
    hide PlanError, PlanNext;
    var plan := Plan({}, {}, false);
    for i := 0 to |ops|
      invariant PlanAll(values, verified, ops[..i]) == Good(plan)
    {
      assert ops[..i + 1][..i] == ops[..i];
      var error := PlanError(values, verified, plan, ops[i]);
      if error.Some? {
        BadStays(values, verified, ops, i + 1);
        return Bad(error.value);
      }
      plan := PlanNext(values, plan, ops[i]);
    }
    assert ops[..|ops|] == ops;
    return Good(plan);
  }

  lemma {:induction false} BadStays(values: map<Key, KeyValue>, verified: set<int>, ops: seq<Op>, i: nat)
    requires i <= |ops| && PlanAll(values, verified, ops[..i]).Bad?
    ensures PlanAll(values, verified, ops) == PlanAll(values, verified, ops[..i])
    decreases |ops| - i
  {
    hide PlanError, PlanNext;
    if i == |ops| {
      assert ops[..i] == ops;
    } else {
      assert ops[..i + 1][..i] == ops[..i];
      BadStays(values, verified, ops, i + 1);
    }
  }

  /** Erases the listed keys one by one, detaching each from its lease. */
  method EraseListed(values: map<Key, KeyValue>, leases: map<int, Lease>, keys: seq<Key>)
    returns (left: map<Key, KeyValue>, freed: Option<map<int, Lease>>, removed: seq<KeyValue>, events: seq<Event>)
    requires Ascending(keys) && forall k :: k in keys ==> k in values
    ensures removed == Listed(values, keys) && events == Erasures(removed)
    ensures left == values - KeySet(keys)
    ensures freed == DetachAll(leases, removed)
  {
    hide Detach;
    left, freed, removed, events := values, Some(leases), [], [];
    for i := 0 to |keys|
      invariant |removed| == |events| == i
      invariant forall j :: 0 <= j < i ==> removed[j] == values[keys[j]] && events[j] == Erased(removed[j])
      invariant left == values - KeySet(keys[..i])
      invariant freed == DetachAll(leases, removed)
    {
      var v := values[keys[i]];
      assert keys[..i + 1] == keys[..i] + [keys[i]];
      assert (removed + [v])[..i] == removed;
      if freed.Some? { freed := Detach(freed.value, v); }
      removed := removed + [v];
      events := events + [Erased(v)];
      left := left - {keys[i]};
    }
    assert keys[..|keys|] == keys;
    assert removed == Listed(values, keys);
    assert events == Erasures(removed);
  }

  /** Erases the listed keys one by one. */
  method EraseCarried(values: map<Key, KeyValue>, keys: seq<Key>)
    returns (left: map<Key, KeyValue>, removed: seq<KeyValue>, events: seq<Event>)
    requires forall k :: k in keys ==> k in values
    ensures removed == Listed(values, keys) && events == Erasures(removed) && left == values - KeySet(keys)
  {
    left, removed, events := values, [], [];
    for i := 0 to |keys|
      invariant |removed| == |events| == i
      invariant forall j :: 0 <= j < i ==> removed[j] == values[keys[j]] && events[j] == Erased(removed[j])
      invariant left == values - KeySet(keys[..i])
    {
      assert keys[..i + 1] == keys[..i] + [keys[i]];
      var v := values[keys[i]];
      removed, events, left := removed + [v], events + [Erased(v)], left - {keys[i]};
    }
    assert keys[..|keys|] == keys;
    assert removed == Listed(values, keys);
    assert events == Erasures(removed);
  }

  lemma AttachedAreValues(d: Data, ids: set<int>)
    requires CleanupConsistent(d, ids)
    ensures forall k :: k in AttachedTo(d.leases, ids) ==> k in d.values
    ensures KeySet(Sorted(AttachedTo(d.leases, ids))) == AttachedTo(d.leases, ids)
  {
  }

  /** Collects the keys of the leases and erases them and the leases on copies. */
  method EvaluateRemoval(d: Data, ids: set<int>, at: nat) returns (r: StoreModel.Outcome)
    requires ids <= d.leases.Keys
    ensures r == RemoveLeases(d, ids, at)
  {
    hide CleanupConsistent, AttachedTo, KeySet, Erasures;
    var ok, keys := CollectAttached(d, ids);
    if !ok { return Refused(Corrupt); }
    if ids != {} && d.revision == INT64_MAX { return Refused(Exhausted); }
    var revision := if ids == {} then d.revision else d.revision + 1;
    AttachedAreValues(d, ids);
    var left, deleted, events := EraseCarried(d.values, Sorted(keys));
    return Done(d.(values := left, leases := d.leases - ids, revision := revision, tick := at),
                Cleaned(LeaseOk, ids, deleted, revision), if ids == {} then None else Some(events));
  }

  method ExecuteOne(w: Work, revision: int, op: Op) returns (next: Option<Work>)
    ensures next == Execute(w, revision, op)
  {
    match op
    case RangeOp(range, limit, _) =>
      var found := Limited(Listed(w.values, Sorted(KeysIn(w.values, range))), limit);
      next := Some(w.(responses := w.responses + [RangeResponse(found, revision)]));
    case PutOp(key, value, lease, wantPrevious) =>
      var before := Lookup(w.values, key);
      var current := NextValue(before, key, value, lease, revision);
      var leases := Relink(w.leases, before, key, lease);
      if leases.None? { return None; }
      next := Some(Work(w.values[key := current], leases.value, w.events + [Stored(current, before)],
                        w.responses + [PutResponse(current, if wantPrevious then before else None, revision)]));
    case DeleteOp(range, wantPrevious) =>
      var keys := KeysIn(w.values, range);
      var left, leases, removed, events := EraseListed(w.values, w.leases, Sorted(keys));
      assert KeySet(Sorted(keys)) == keys;
      if leases.None? { return None; }
      next := Some(Work(left, leases.value, w.events + events,
                        w.responses + [DeleteResponse(|removed|, if wantPrevious then removed else [], revision)]));
  }

  /** The second pass. */
  method ExecuteOperations(values: map<Key, KeyValue>, leases: map<int, Lease>, revision: int, ops: seq<Op>)
    returns (work: Option<Work>)
    ensures work == ExecuteAll(values, leases, revision, ops)
  {
    hide Execute;
    work := Some(Work(values, leases, [], []));
    for i := 0 to |ops|
      invariant work == ExecuteAll(values, leases, revision, ops[..i])
    {
      assert ops[..i + 1][..i] == ops[..i];
      if work.Some? { work := ExecuteOne(work.value, revision, ops[i]); }
    }
    assert ops[..|ops|] == ops;
  }

  method CollectExpired(leases: map<int, Lease>, at: nat) returns (expired: set<int>)
    ensures expired == ExpiredIds(leases, at)
  {
    expired := {};
    var rest := leases.Keys;
    while rest != {}
      invariant rest <= leases.Keys
      invariant forall id :: id in expired <==> id in leases && id !in rest && leases[id].expiry <= at
      decreases |rest|
    {
      ghost var some := SomeId(rest);
      var id: int :| id in rest;
      rest := rest - {id};
      if leases[id].expiry <= at { expired := expired + {id}; }
    }
    var all := ExpiredIds(leases, at);
    assert forall id :: id in all ==> id in expired;
    assert forall id :: id in expired ==> id in all;
    assert expired == all;
  }

  /** Walks the leases and the keys attached to each; stops at a key that does not carry its
      lease. */
  method CollectAttached(d: Data, ids: set<int>) returns (ok: bool, keys: set<Key>)
    requires ids <= d.leases.Keys
    ensures ok <==> CleanupConsistent(d, ids)
    ensures ok ==> keys == AttachedTo(d.leases, ids)
  {
    ok, keys := true, {};
    var rest := ids;
    while rest != {}
      invariant rest <= ids && CleanupConsistent(d, ids - rest)
      invariant keys == AttachedTo(d.leases, ids - rest)
      decreases |rest|
    {
      ghost var some := SomeId(rest);
      var id: int :| id in rest;
      var one := CarriesAll(d.values, id, d.leases[id].keys);
      if !one {
        assert id in ids && id in d.leases;
        return false, keys;
      }
      AttachedMore(d.leases, ids - rest, id);
      assert ids - (rest - {id}) == ids - rest + {id};
      rest := rest - {id};
      keys := keys + d.leases[id].keys;
    }
    assert ids - rest == ids;
  }

  lemma AttachedMore(leases: map<int, Lease>, ids: set<int>, id: int)
    requires id in leases
    ensures AttachedTo(leases, ids + {id}) == AttachedTo(leases, ids) + leases[id].keys
  {
    var all, some := AttachedTo(leases, ids + {id}), AttachedTo(leases, ids) + leases[id].keys;
    forall k | k in all ensures k in some {
      var other :| other in ids + {id} && other in leases && k in leases[other].keys;
    }
    forall k | k in some ensures k in all {
      if k in leases[id].keys {
        assert id in ids + {id};
      } else {
        var other :| other in ids && other in leases && k in leases[other].keys;
        assert other in ids + {id};
      }
    }
  }

  method CarriesAll(values: map<Key, KeyValue>, id: int, keys: set<Key>) returns (ok: bool)
    ensures ok <==> forall k :: k in keys ==> k in values && values[k].lease == id
  {
    var rest := keys;
    while rest != {}
      invariant rest <= keys && forall k :: k in keys - rest ==> k in values && values[k].lease == id
      decreases |rest|
    {
      var k :| k in rest;
      if k !in values || values[k].lease != id { return false; }
      rest := rest - {k};
    }
    return true;
  }

  method DeliverTo(w: Watch, b: Batch, limits: Limits) returns (next: Watch)
    requires w.request.from <= b.revision
    ensures next == Deliver(w, b, limits)
  {
    if w.terminal.Some? { return w; }
    var matching := SelectMatching(w.request, b.events);
    if matching == [] && !w.request.progress { return w; }
    if |w.pending| >= limits.maxPending {
      return w.(pending := [], terminal := Some(Delivery(b.revision, [], true)));
    }
    return w.(pending := w.pending + [Delivery(b.revision, matching, false)]);
  }

  // ---- The object ----------------------------------------------------------

  class MetadataStore {
    const limits: Limits
    var values: map<Key, KeyValue>
    var leases: map<int, Lease>
    var revision: int
    var tick: nat
    var nextLease: int
    var nextToken: nat
    var compact: int
    var history: seq<Batch>
    var watchers: map<int, Watch>

    function DataView(): Data
      reads this
    {
      Data(values, leases, revision, tick, nextLease, nextToken)
    }

    function FeedView(): Feed
      reads this
    {
      Feed(compact, history, watchers)
    }

    /** No watch waits for a revision beyond the next one. */
    ghost predicate Timely()
      reads this
    {
      forall id :: id in watchers ==> watchers[id].request.from <= revision + 1
    }

    ghost predicate Valid()
      reads this
    {
      DataInv(DataView(), limits) && Timely()
    }

    constructor (limits: Limits)
      ensures this.limits == limits && Valid()
      ensures DataView() == EMPTY && FeedView() == Feed(0, [], map[])
    {
      this.limits := limits;
      values, leases, revision, tick, nextLease, nextToken := map[], map[], 0, 0, 1, 1;
      compact, history, watchers := 0, [], map[];
    }

    method CommitData(d: Data)
      modifies this`values, this`leases, this`revision, this`tick, this`nextLease, this`nextToken
      ensures DataView() == d
    {
      values, leases, revision, tick := d.values, d.leases, d.revision, d.tick;
      nextLease, nextToken := d.nextLease, d.nextToken;
    }

    /** Stages the watches on a copy, trims the history and swaps both in. */
    method PublishBatch(b: Batch)
      requires forall id :: id in watchers ==> watchers[id].request.from <= b.revision
      modifies this`compact, this`history, this`watchers
      ensures FeedView() == Publish(old(FeedView()), b, limits)
      ensures forall id :: id in watchers ==> watchers[id].request.from <= b.revision
    {
      hide Deliver;
      var staged := watchers;
      var rest := watchers.Keys;
      while rest != {}
        invariant rest <= watchers.Keys && staged.Keys == watchers.Keys && watchers == old(watchers)
        invariant compact == old(compact) && history == old(history)
        invariant forall id :: id in staged ==>
          staged[id] == if id in rest then watchers[id] else Deliver(watchers[id], b, limits)
        decreases |rest|
      {
        ghost var some := SomeId(rest);
        var id: int :| id in rest;
        var next := DeliverTo(watchers[id], b, limits);
        staged := staged[id := next];
        rest := rest - {id};
      }
      assert forall id :: id in staged ==> staged[id] == Deliver(watchers[id], b, limits);
      var kept, floor := history + [b], compact;
      ghost var whole := Trim(compact, history + [b], limits.maxHistory);
      while |kept| > limits.maxHistory
        invariant Trim(floor, kept, limits.maxHistory) == whole
        invariant watchers == old(watchers)
      {
        floor := kept[0].revision;
        kept := kept[1..];
      }
      assert staged == map id | id in watchers :: Deliver(watchers[id], b, limits);
      history, compact, watchers := kept, floor, staged;
      forall id | id in watchers ensures watchers[id].request.from <= b.revision {
        DeliverKeepsRequest(old(watchers)[id], b, limits);
      }
    }

    /** Swaps in the outcome of a transaction that was computed on the side. */
    method Settle(r: StoreModel.Outcome) returns (reply: Reply)
      requires Valid()
      requires r.Done? ==> DataInv(r.data, limits)
      requires r.Done? ==> r.data.revision == revision + (if r.events.Some? then 1 else 0)
      modifies this
      ensures Valid() && Follows(old(DataView()), old(FeedView()), limits, r, reply, DataView(), FeedView())
    {
      hide DataInv, Publish;
      if r.Refused? { return Failed(r.error); }
      CommitData(r.data);
      if r.events.Some? { PublishBatch(Batch(r.data.revision, r.events.value)); }
      return Ok(r.answer);
    }

    /** Writes one key on copies of both indexes, publishes, and swaps the copies in. */
    method PutLocked(key: Key, value: Bytes) returns (reply: Reply)
      requires Valid() && key != []
      modifies this
      ensures Valid()
      ensures Follows(old(DataView()), old(FeedView()), limits,
                      WriteOne(old(DataView()), key, value), reply, DataView(), FeedView())
    {
      hide DataInv, Publish;
      WriteKeeps(DataView(), limits, key, value);
      var previous := if key in values then Some(values[key]) else None;
      if revision == INT64_MAX { return Failed(Exhausted); }
      if previous.Some? && previous.value.version == INT64_MAX { return Failed(Exhausted); }
      var at := revision + 1;
      var current := KeyValue(key, value, if previous.Some? then previous.value.version + 1 else 1,
                              if previous.Some? then previous.value.created else at, at, 0);
      var workingValues, workingLeases := values[key := current], leases;
      if previous.Some? {
        var freed := Detach(workingLeases, previous.value);
        if freed.None? { return Failed(Corrupt); }
        workingLeases := freed.value;
      }
      PublishBatch(Batch(at, [Stored(current, previous)]));
      values, leases, revision := workingValues, workingLeases, at;
      return Ok(Wrote(current, previous, at));
    }

    method Put(key: Key, value: Bytes) returns (reply: Reply)
      requires Valid()
      modifies this
      ensures Valid() && PutMeans(old(DataView()), key, value, reply, DataView())
      ensures Follows(old(DataView()), old(FeedView()), limits,
                      Run(old(DataView()), limits, StoreModel.Put(key, value)), reply, DataView(), FeedView())
    {
      hide DataInv, WriteOne, Publish, PutMeans;
      PutIsMeant(DataView(), limits, key, value);
      if key == [] { return Failed(Invalid); }
      reply := PutLocked(key, value);
    }

    method Erase(key: Key) returns (reply: Reply)
      requires Valid()
      modifies this
      ensures Valid() && EraseMeans(old(DataView()), key, reply, DataView())
      ensures Follows(old(DataView()), old(FeedView()), limits,
                      Run(old(DataView()), limits, StoreModel.Erase(key)), reply, DataView(), FeedView())
    {
      hide DataInv, Publish, EraseMeans;
      EraseIsMeant(DataView(), limits, key);
      EraseKeeps(DataView(), limits, key);
      if key == [] { return Failed(Invalid); }
      if key !in values { return Ok(Removed(None, revision)); }
      if revision == INT64_MAX { return Failed(Exhausted); }
      var at, previous := revision + 1, values[key];
      var freed := Detach(leases, previous);
      if freed.None? { return Failed(Corrupt); }
      PublishBatch(Batch(at, [Erased(previous)]));
      values, leases, revision := values - {key}, freed.value, at;
      return Ok(Removed(Some(previous), at));
    }

    method CompareAndSet(key: Key, expected: int, value: Bytes) returns (reply: Reply)
      requires Valid()
      modifies this
      ensures Valid() && CompareAndSetMeans(old(DataView()), key, expected, value, reply, DataView())
      ensures Follows(old(DataView()), old(FeedView()), limits,
                      Run(old(DataView()), limits, StoreModel.CompareAndSet(key, expected, value)),
                      reply, DataView(), FeedView())
    {
      hide DataInv, Publish, WriteOne, CompareAndSetMeans;
      CompareAndSetIsMeant(DataView(), limits, key, expected, value);
      if key == [] || expected < 0 { return Failed(Invalid); }
      WriteTick(DataView(), key, value);
      var now := if key in values then Some(values[key]) else None;
      var matches := if now.None? then expected == 0 else now.value.modified == expected;
      if !matches { return Ok(Compared(false, now, revision)); }
      var written := PutLocked(key, value);
      if written.Failed? { return written; }
      return Ok(Compared(true, Some(written.answer.current), revision));
    }

    /** Both passes of a transaction, on copies. */
    method EvaluateTransaction(t: Txn) returns (r: StoreModel.Outcome)
      ensures r == DoTransact(DataView(), t)
    {
      hide AllHold, PlanAll, ExecuteAll;
      var holds := CheckComparisons(values, t.comparisons);
      if holds.None? { return Refused(Invalid); }
      if t.ownership != [] && t.tick < tick { return Refused(Invalid); }
      var ok, all, verified := CheckOwnership(leases, t.tick, t.ownership);
      if !ok { return Refused(Invalid); }
      var succeeded := holds.value && all;
      var ops := if succeeded then t.success else t.failure;
      var planned := PlanOperations(values, verified, ops);
      if planned.Bad? { return Refused(planned.error); }
      if planned.plan.effective && revision == INT64_MAX { return Refused(Exhausted); }
      var at := if planned.plan.effective then revision + 1 else revision;
      var work := ExecuteOperations(values, leases, at, ops);
      if work.None? { return Refused(Corrupt); }
      var w := work.value;
      return Done(Data(w.values, w.leases, at, if t.ownership != [] then t.tick else tick, nextLease, nextToken),
                  Transacted(succeeded, at, w.responses),
                  if planned.plan.effective then Some(w.events) else None);
    }

    method Transaction(t: Txn) returns (reply: Reply)
      requires Valid()
      modifies this
      ensures Valid() && TransactionMeans(old(DataView()), t, reply, DataView())
      ensures Follows(old(DataView()), old(FeedView()), limits,
                      Run(old(DataView()), limits, Transact(t)), reply, DataView(), FeedView())
    {
      hide DataInv, DoTransact, Publish, TransactionMeans;
      TransactionIsMeant(DataView(), limits, t);
      RunKeeps(DataView(), limits, Transact(t));
      var r := EvaluateTransaction(t);
      reply := Settle(r);
    }

    method GrantLease(at: nat, ttl: nat, requested: int) returns (reply: Reply)
      requires Valid()
      modifies this`leases, this`nextLease, this`nextToken, this`tick
      ensures Valid() && GrantMeans(old(DataView()), limits, at, ttl, requested, reply, DataView())
      ensures Follows(old(DataView()), old(FeedView()), limits,
                      Run(old(DataView()), limits, Grant(at, ttl, requested)), reply, DataView(), FeedView())
    {
      hide DataInv, GrantMeans;
      GrantIsMeant(DataView(), limits, at, ttl, requested);
      GrantKeeps(DataView(), limits, at, ttl, requested);
      if at < tick || ttl == 0 { return Failed(Invalid); }
      if at > U64_MAX - ttl { return Failed(Exhausted); }
      if nextToken >= U64_MAX { return Failed(Exhausted); }
      if |leases| >= limits.maxLeases { return Failed(Quota); }
      var id := requested;
      if id == 0 {
        if nextLease > MAX_LEASE_ID { return Failed(Exhausted); }
        id := nextLease;
      } else if id < 0 || id > MAX_LEASE_ID {
        return Failed(Invalid);
      }
      if id in leases { return Failed(Invalid); }
      var stored := Lease(nextToken, ttl, at + ttl, {});
      leases := leases[id := stored];
      if id >= nextLease { nextLease := id + 1; }
      nextToken := nextToken + 1;
      tick := at;
      return Ok(Granted(id, stored, revision));
    }

    method KeepAlive(at: nat, id: int, token: nat) returns (reply: Reply)
      requires Valid()
      modifies this`leases, this`tick
      ensures Valid() && KeepAliveMeans(old(DataView()), at, id, token, reply, DataView())
      ensures Follows(old(DataView()), old(FeedView()), limits,
                      Run(old(DataView()), limits, StoreModel.KeepAlive(at, id, token)), reply, DataView(), FeedView())
    {
      hide DataInv, KeepAliveMeans;
      KeepAliveIsMeant(DataView(), limits, at, id, token);
      KeepAliveKeeps(DataView(), limits, at, id, token);
      if at < tick || id <= 0 || token == 0 { return Failed(Invalid); }
      var code, found, remaining := NotFound, None, 0;
      if id in leases {
        found := Some(leases[id]);
        if at >= leases[id].expiry {
          code := Expired;
        } else {
          code, remaining := LeaseOk, leases[id].expiry - at;
          if leases[id].token != token {
            code := TokenMismatch;
          } else {
            if at > U64_MAX - leases[id].ttl { return Failed(Exhausted); }
            leases := leases[id := leases[id].(expiry := at + leases[id].ttl)];
            found, remaining := Some(leases[id]), leases[id].ttl;
          }
        }
      }
      tick := at;
      return Ok(LookedUp(code, found, remaining, revision));
    }

    method RemoveLeasesLocked(ids: set<int>, at: nat) returns (reply: Reply)
      requires Valid() && ids <= leases.Keys && tick <= at
      modifies this
      ensures Valid()
      ensures Follows(old(DataView()), old(FeedView()), limits,
                      RemoveLeases(old(DataView()), ids, at), reply, DataView(), FeedView())
    {
      hide DataInv, Publish, RemoveLeases;
      CleanupExact(DataView(), limits, ids, at);
      RemoveEvents(DataView(), ids, at);
      var r := EvaluateRemoval(DataView(), ids, at);
      reply := Settle(r);
    }

    method RevokeLease(at: nat, id: int, token: nat) returns (reply: Reply)
      requires Valid()
      modifies this
      ensures Valid() && RevokeMeans(old(DataView()), at, id, token, reply, DataView())
      ensures Follows(old(DataView()), old(FeedView()), limits,
                      Run(old(DataView()), limits, Revoke(at, id, token)), reply, DataView(), FeedView())
    {
      hide DataInv, RemoveLeases, Publish, RevokeMeans;
      RevokeIsMeant(DataView(), limits, at, id, token);
      if at < tick || id <= 0 || token == 0 { return Failed(Invalid); }
      if id !in leases {
        TickKeeps(DataView(), limits, at);
        tick := at;
        return Ok(Cleaned(NotFound, {}, [], revision));
      }
      if leases[id].token != token {
        TickKeeps(DataView(), limits, at);
        tick := at;
        return Ok(Cleaned(TokenMismatch, {}, [], revision));
      }
      reply := RemoveLeasesLocked({id}, at);
    }

    /** Collects the expired leases in a walk over all of them, then removes them at once. */
    method ExpireLeases(at: nat) returns (reply: Reply)
      requires Valid()
      modifies this
      ensures Valid() && ExpireMeans(old(DataView()), at, reply, DataView())
      ensures Follows(old(DataView()), old(FeedView()), limits,
                      Run(old(DataView()), limits, Expire(at)), reply, DataView(), FeedView())
    {
      hide DataInv, RemoveLeases, Publish, ExpireMeans;
      ExpireIsMeant(DataView(), limits, at);
      if at < tick { return Failed(Invalid); }
      var expired := CollectExpired(leases, at);
      reply := RemoveLeasesLocked(expired, at);
    }

    // ---- Watches -----------------------------------------------------------

    /** Replays the history into the new watch's queue; gives up when the queue is full. */
    method CreateWatch(request: WatchRequest) returns (ok: bool)
      requires Valid()
      modifies this`watchers
      ensures Valid()
      ensures ok <==> Create(old(FeedView()), revision, limits, request).Some?
      ensures FeedView() == if ok then Create(old(FeedView()), revision, limits, request).value else old(FeedView())
    {
      hide DataInv, Expected, ResponsesTo;
      if !CreateOk(FeedView(), revision, limits, request) { return false; }
      var started := request.(from := StartRevision(revision, request.from).value);
      var pending: seq<Delivery> := [];
      assert history[..0] == [];
      ReplayNothing(started);
      for i := 0 to |history|
        invariant watchers == old(watchers)
        invariant pending == Expected(started, history[..i]) && |pending| <= limits.maxPending
      {
        assert history[..i + 1][..i] == history[..i];
        ReplayStep(started, history[..i + 1]);
        if history[i].revision >= started.from {
          var matching := SelectMatching(started, history[i].events);
          if matching != [] || started.progress {
            ReplayHit(started, history[i]);
            if |pending| >= limits.maxPending {
              ReplayGrows(started, history, i + 1);
              return false;
            }
            pending := pending + [Delivery(history[i].revision, matching, false)];
          } else {
            ReplayMiss(started, history[i]);
          }
        } else {
          ReplayMiss(started, history[i]);
        }
      }
      assert history[..|history|] == history;
      watchers := watchers[request.id := Watch(started, pending, None)];
      return true;
    }

    method PollWatch(id: int) returns (ok: bool, response: Option<Delivery>)
      requires Valid()
      modifies this`watchers
      ensures Valid()
      ensures ok <==> Poll(old(FeedView()), id).Some?
      ensures ok ==> Polled(FeedView(), response) == Poll(old(FeedView()), id).value
      ensures !ok ==> FeedView() == old(FeedView())
    {
      hide DataInv;
      if id !in watchers { return false, None; }
      var w := watchers[id];
      if w.terminal.Some? {
        watchers := watchers - {id};
        return true, w.terminal;
      }
      if w.pending == [] { return true, None; }
      watchers := watchers[id := w.(pending := w.pending[1..])];
      return true, Some(w.pending[0]);
    }

    method RequestWatchProgress(id: int) returns (ok: bool)
      requires Valid()
      modifies this`watchers
      ensures Valid()
      ensures ok <==> Progress(old(FeedView()), revision, limits, id).Some?
      ensures FeedView() == if ok then Progress(old(FeedView()), revision, limits, id).value else old(FeedView())
    {
      hide DataInv;
      if id !in watchers { return false; }
      var w := watchers[id];
      if w.terminal.Some? { return true; }
      if |w.pending| >= limits.maxPending {
        watchers := watchers[id := w.(pending := [], terminal := Some(Delivery(revision, [], true)))];
      } else {
        watchers := watchers[id := w.(pending := w.pending + [Delivery(revision, [], false)])];
      }
      return true;
    }

    method CancelWatch(id: int) returns (ok: bool)
      requires Valid()
      modifies this`watchers
      ensures Valid()
      ensures ok <==> Cancel(old(FeedView()), id).Some?
      ensures FeedView() == if ok then Cancel(old(FeedView()), id).value else old(FeedView())
    {
      hide DataInv;
      if id !in watchers { return false; }
      watchers := watchers - {id};
      return true;
    }
  }

  // ---- Facts for the loops -------------------------------------------------

  lemma DeliverKeepsRequest(w: Watch, b: Batch, limits: Limits)
    ensures Deliver(w, b, limits).request == w.request
  {
  }

  lemma ReplayNothing(r: WatchRequest)
    ensures Expected(r, []) == []
  {
  }

  lemma ReplayStep(r: WatchRequest, log: seq<Batch>)
    requires log != []
    ensures Expected(r, log) == Expected(r, log[..|log| - 1]) + ResponsesTo(r, log[|log| - 1])
  {
  }

  lemma ReplayHit(r: WatchRequest, b: Batch)
    requires b.revision >= r.from && (Matching(r, b.events) != [] || r.progress)
    ensures ResponsesTo(r, b) == [Delivery(b.revision, Matching(r, b.events), false)]
  {
  }

  lemma ReplayMiss(r: WatchRequest, b: Batch)
    requires b.revision < r.from || (Matching(r, b.events) == [] && !r.progress)
    ensures ResponsesTo(r, b) == []
  {
  }

  lemma ReplayGrows(r: WatchRequest, log: seq<Batch>, i: nat)
    requires i <= |log|
    ensures |Expected(r, log[..i])| <= |Expected(r, log)|
  {
    hide Expected;
    ExpectedAppend(r, log[..i], log[i..]);
    assert log == log[..i] + log[i..];
  }
}
