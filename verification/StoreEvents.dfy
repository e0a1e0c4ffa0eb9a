/** What the published events mean: those of a command are exactly the differences it makes, the
    batches of a run rebuild the store at every revision, and what a watch hands out rebuilds
    the keys it watches. */
module StoreEvents {
  import opened RaftTypes
  import opened ByteCodec
  import opened KeyOrder
  import opened StoreModel
  import opened StoreProofs
  import opened StoreRuns
  import opened StoreWatch

  // ---- Differences ---------------------------------------------------------

  /** The event tells the truth about its key, before and after. */
  predicate Truthful(was: map<Key, KeyValue>, now: map<Key, KeyValue>, revision: int, e: Event) {
    match e
    case Stored(current, before) =>
      && current.key in now && now[current.key] == current && before == Lookup(was, current.key)
      && current.modified == revision
    case Erased(previous) =>
      previous.key in was && was[previous.key] == previous && previous.key !in now
  }

  predicate Mentions(events: seq<Event>, k: Key) {
    exists i :: 0 <= i < |events| && EventKey(events[i]) == k
  }

  /** One event for each key that differs, and none for any other. */
  ghost predicate Differences(was: map<Key, KeyValue>, now: map<Key, KeyValue>, revision: int, events: seq<Event>) {
    && (forall i :: 0 <= i < |events| ==> Truthful(was, now, revision, events[i]))
    && (forall i, j :: 0 <= i < j < |events| ==> EventKey(events[i]) != EventKey(events[j]))
    && (forall k :: Mentions(events, k) <==> Lookup(was, k) != Lookup(now, k))
  }

  /** Values from before the revision cannot be among the new ones. */
  predicate Older(was: map<Key, KeyValue>, revision: int) {
    forall k :: k in was ==> was[k].key == k && was[k].modified < revision
  }

  lemma MentionsMore(events: seq<Event>, more: seq<Event>, k: Key)
    ensures Mentions(events + more, k) <==> Mentions(events, k) || Mentions(more, k)
  {
    var all := events + more;
    if Mentions(events, k) {
      var i :| 0 <= i < |events| && EventKey(events[i]) == k;
      assert all[i] == events[i];
    }
    if Mentions(more, k) {
      var i :| 0 <= i < |more| && EventKey(more[i]) == k;
      assert all[|events| + i] == more[i];
    }
  }

  /** A key that nothing has changed so far is put. */
  lemma PutDiffers(was: map<Key, KeyValue>, now: map<Key, KeyValue>, revision: int, events: seq<Event>, v: KeyValue)
    requires Differences(was, now, revision, events) && Older(was, revision)
    requires Lookup(now, v.key) == Lookup(was, v.key) && v.modified == revision
    ensures Differences(was, now[v.key := v], revision, events + [Stored(v, Lookup(was, v.key))])
  {
    var e := Stored(v, Lookup(was, v.key));
    var all, after := events + [e], now[v.key := v];
    assert !Mentions(events, v.key);
    forall i | 0 <= i < |events|
      ensures all[i] == events[i] && EventKey(events[i]) != v.key && Truthful(was, after, revision, events[i])
    {
      assert Mentions(events, EventKey(events[i]));
    }
    assert all[|events|] == e;
    forall k ensures Mentions(all, k) <==> Lookup(was, k) != Lookup(after, k) {
      MentionsMore(events, [e], k);
      assert Mentions([e], k) <==> k == v.key by { assert [e][0] == e; }
      if k != v.key { assert Lookup(after, k) == Lookup(now, k); }
    }
  }

  lemma NothingDiffers(values: map<Key, KeyValue>, revision: int)
    ensures Differences(values, values, revision, [])
  {
  }

  /** One key that nothing has changed so far is erased. */
  lemma EraseDiffers(was: map<Key, KeyValue>, now: map<Key, KeyValue>, revision: int, events: seq<Event>, k0: Key)
    requires Differences(was, now, revision, events) && Older(was, revision)
    requires k0 in was && k0 in now && now[k0] == was[k0]
    ensures Differences(was, now - {k0}, revision, events + [Erased(was[k0])])
  {
    var e := Erased(was[k0]);
    var all, after := events + [e], now - {k0};
    assert Lookup(now, k0) == Lookup(was, k0);
    assert !Mentions(events, k0);
    forall i | 0 <= i < |events|
      ensures all[i] == events[i] && EventKey(events[i]) != k0 && Truthful(was, after, revision, events[i])
    {
      assert Mentions(events, EventKey(events[i]));
    }
    assert all[|events|] == e;
    forall k ensures Mentions(all, k) <==> Lookup(was, k) != Lookup(after, k) {
      MentionsMore(events, [e], k);
      assert Mentions([e], k) <==> k == k0 by { assert [e][0] == e; }
      if k != k0 { assert Lookup(after, k) == Lookup(now, k); }
    }
  }

  /** Several such keys are erased, in order. */
  lemma {:induction false} ErasuresDiffer(was: map<Key, KeyValue>, now: map<Key, KeyValue>, revision: int,
                                          events: seq<Event>, keys: seq<Key>)
    requires Differences(was, now, revision, events) && Older(was, revision) && NoDuplicates(keys)
    requires forall k :: k in keys ==> k in was && k in now && now[k] == was[k]
    ensures Differences(was, now - KeySet(keys), revision, events + Erasures(Listed(was, keys)))
  {
    hide Differences, Older;
    if keys == [] {
      assert now - KeySet(keys) == now && events + Erasures(Listed(was, keys)) == events;
    } else {
      var n := |keys| - 1;
      var front, last := keys[..n], keys[n];
      assert keys == front + [last];
      assert last !in front;
      ErasuresDiffer(was, now, revision, events, front);
      assert KeySet(keys) == KeySet(front) + {last};
      assert (now - KeySet(front)) - {last} == now - KeySet(keys);
      EraseDiffers(was, now - KeySet(front), revision, events + Erasures(Listed(was, front)), last);
      assert events + Erasures(Listed(was, front)) + [Erased(was[last])] == events + Erasures(Listed(was, keys));
    }
  }

  // ---- Replaying events ----------------------------------------------------

  function Applied(values: map<Key, KeyValue>, e: Event): map<Key, KeyValue> {
    match e
    case Stored(current, _) => values[current.key := current]
    case Erased(previous) => values - {previous.key}
  }

  function Replay(values: map<Key, KeyValue>, events: seq<Event>): map<Key, KeyValue> {
    if events == [] then values
    else Applied(Replay(values, events[..|events| - 1]), events[|events| - 1])
  }

  lemma {:induction false} ReplayAt(was: map<Key, KeyValue>, now: map<Key, KeyValue>, revision: int,
                                    events: seq<Event>, k: Key)
    requires forall i :: 0 <= i < |events| ==> Truthful(was, now, revision, events[i])
    ensures Lookup(Replay(was, events), k) == if Mentions(events, k) then Lookup(now, k) else Lookup(was, k)
  {
    if events != [] {
      var n := |events| - 1;
      ReplayAt(was, now, revision, events[..n], k);
      assert events == events[..n] + [events[n]];
      MentionsMore(events[..n], [events[n]], k);
      assert Mentions([events[n]], k) <==> EventKey(events[n]) == k by { assert [events[n]][0] == events[n]; }
    }
  }

  /** Replaying the differences makes them. */
  lemma ReplayMakesDifferences(was: map<Key, KeyValue>, now: map<Key, KeyValue>, revision: int, events: seq<Event>)
    requires Differences(was, now, revision, events)
    ensures Replay(was, events) == now
  {
    var out := Replay(was, events);
    forall k ensures Lookup(out, k) == Lookup(now, k) {
      ReplayAt(was, now, revision, events, k);
    }
    assert forall k :: k in out <==> k in now by {
      forall k ensures k in out <==> k in now { assert Lookup(out, k) == Lookup(now, k); }
    }
    assert forall k :: k in out ==> out[k] == now[k] by {
      forall k | k in out ensures out[k] == now[k] { assert Lookup(out, k) == Lookup(now, k); }
    }
  }

  // ---- The events of a command ---------------------------------------------

  lemma OlderThanNext(d: Data, limits: Limits)
    requires DataInv(d, limits)
    ensures Older(d.values, d.revision + 1)
  {
    hide Agree, LeasesOk;
  }

  lemma WriteDiffers(d: Data, limits: Limits, key: Key, value: Bytes)
    requires DataInv(d, limits) && WriteOne(d, key, value).Done?
    ensures var r := WriteOne(d, key, value);
      r.events.Some? && Differences(d.values, r.data.values, r.data.revision, r.events.value)
  {
    hide DataInv, Relink, Differences;
    OlderThanNext(d, limits);
    NothingDiffers(d.values, d.revision + 1);
    var current := NextValue(Lookup(d.values, key), key, value, 0, d.revision + 1);
    PutDiffers(d.values, d.values, d.revision + 1, [], current);
    assert [] + [Stored(current, Lookup(d.values, key))] == [Stored(current, Lookup(d.values, key))];
  }

  lemma EraseOneDiffers(d: Data, limits: Limits, key: Key)
    requires DataInv(d, limits) && DoErase(d, key).Done?
    ensures var r := DoErase(d, key);
      if r.events.Some? then Differences(d.values, r.data.values, r.data.revision, r.events.value)
      else r.data.values == d.values
  {
    hide DataInv, Detach, Differences;
    OlderThanNext(d, limits);
    NothingDiffers(d.values, d.revision + 1);
    if key in d.values {
      EraseDiffers(d.values, d.values, d.revision + 1, [], key);
      assert [] + [Erased(d.values[key])] == [Erased(d.values[key])];
    }
  }

  lemma CleanupDiffers(d: Data, limits: Limits, ids: set<int>, tick: nat)
    requires DataInv(d, limits) && ids <= d.leases.Keys && RemoveLeases(d, ids, tick).Done?
    ensures var r := RemoveLeases(d, ids, tick);
      if r.events.Some? then Differences(d.values, r.data.values, r.data.revision, r.events.value)
      else r.data.values == d.values
  {
    hide DataInv, Differences;
    OlderThanNext(d, limits);
    NothingDiffers(d.values, d.revision + 1);
    var keys := AttachedTo(d.leases, ids);
    var listed := Sorted(keys);
    AscendingDistinct(listed);
    assert KeySet(listed) == keys;
    ErasuresDiffer(d.values, d.values, d.revision + 1, [], listed);
    assert [] + Erasures(Listed(d.values, listed)) == Erasures(Listed(d.values, listed));
    if ids == {} {
      assert keys == {};
      assert d.values - keys == d.values;
    }
  }

  // ---- The events of a transaction -----------------------------------------

  lemma PutStepDiffers(values: map<Key, KeyValue>, front: seq<Op>, op: Op, revision: int, w: Work)
    requires Differences(values, w.values, revision, w.events) && Older(values, revision)
    requires WrittenAtOnce(values, front, revision, w.values)
    requires op.PutOp? && !PutsKey(front, op.key) && !DeletesKey(front, op.key) && Execute(w, revision, op).Some?
    ensures var w' := Execute(w, revision, op).value; Differences(values, w'.values, revision, w'.events)
  {
    hide Relink, Differences, Older, WrittenAtOnce;
    UntouchedKey(values, front, revision, w.values, op.key);
    var v := NextValue(Lookup(w.values, op.key), op.key, op.value, op.lease, revision);
    PutDiffers(values, w.values, revision, w.events, v);
  }

  lemma DeleteStepDiffers(values: map<Key, KeyValue>, front: seq<Op>, op: Op, revision: int, w: Work)
    requires Differences(values, w.values, revision, w.events) && Older(values, revision)
    requires WrittenAtOnce(values, front, revision, w.values)
    requires op.DeleteOp? && forall k :: InRange(op.range, k) ==> !PutsKey(front, k) && !DeletesKey(front, k)
    requires Execute(w, revision, op).Some?
    ensures var w' := Execute(w, revision, op).value; Differences(values, w'.values, revision, w'.events)
  {
    hide DetachAll, Differences, Older, WrittenAtOnce, InRange;
    var keys := KeysIn(w.values, op.range);
    var listed := Sorted(keys);
    forall k | k in keys ensures k in values && w.values[k] == values[k] {
      UntouchedKey(values, front, revision, w.values, k);
    }
    AscendingDistinct(listed);
    assert KeySet(listed) == keys;
    ErasuresDiffer(values, w.values, revision, w.events, listed);
    assert Listed(values, listed) == Listed(w.values, listed);
  }

  lemma {:induction false} ExecutionDiffers(values: map<Key, KeyValue>, leases: map<int, Lease>, verified: set<int>,
                                            revision: int, ops: seq<Op>)
    requires ValuesOk(values, revision) && Agree(values, leases) && 0 !in leases && verified <= leases.Keys
    requires PlanAll(values, verified, ops).Good? && 0 < revision && Older(values, revision)
    ensures var w := ExecuteAll(values, leases, revision, ops);
      w.Some? && Differences(values, w.value.values, revision, w.value.events)
  {
    hide Agree, ValuesOk, WrittenAtOnce, Execute, PlanError, Differences, Older, PutsKey, DeletesKey;
    if ops == [] {
      NothingDiffers(values, revision);
    } else {
      var n := |ops| - 1;
      var front, op := ops[..n], ops[n];
      ExecutionDiffers(values, leases, verified, revision, front);
      ExecutionRefines(values, leases, verified, revision, front);
      ExecutionRefines(values, leases, verified, revision, ops);
      PlanSeparates(values, verified, front, op);
      var w := ExecuteAll(values, leases, revision, front).value;
      match op {
        case RangeOp(_, _, _) => ReadChangesNothing(w, revision, op);
        case PutOp(_, _, _, _) => PutStepDiffers(values, front, op, revision, w);
        case DeleteOp(_, _) => DeleteStepDiffers(values, front, op, revision, w);
      }
    }
  }

  lemma ReadChangesNothing(w: Work, revision: int, op: Op)
    requires op.RangeOp?
    ensures Execute(w, revision, op).Some?
    ensures Execute(w, revision, op).value.values == w.values && Execute(w, revision, op).value.events == w.events
  {
  }

  lemma TransactionDiffers(d: Data, limits: Limits, t: Txn)
    requires DataInv(d, limits) && DoTransact(d, t).Done?
    ensures var r := DoTransact(d, t);
      if r.events.Some? then Differences(d.values, r.data.values, r.data.revision, r.events.value)
      else r.data.values == d.values
  {
    hide AllHold, PlanAll, ExecuteAll, ValuesOk, Agree, LeasesOk, Owns, Differences, Older;
    TransactionRefines(d, limits, t);
    if DoTransact(d, t).events.Some? {
      OlderThanNext(d, limits);
      NoLeaseZero(d, limits);
      VerifiedLive(d.leases, t.tick, t.ownership);
      ValuesRise(d.values, d.revision, d.revision + 1);
      var holds := AllHold(d.values, t.comparisons).value;
      ExecutionDiffers(d.values, d.leases, Verified(d.leases, t.tick, t.ownership), d.revision + 1,
          Branch(d, t, holds));
    }
  }

  /** The events of every command are exactly the differences between the values before and
      after it; a command without events leaves every value alone. */
  lemma EventsAreDifferences(d: Data, limits: Limits, c: StoreCommand)
    requires DataInv(d, limits) && Run(d, limits, c).Done?
    ensures var r := Run(d, limits, c);
      if r.events.Some? then Differences(d.values, r.data.values, r.data.revision, r.events.value)
      else r.data.values == d.values
  {
    hide DataInv, WriteOne, DoErase, DoTransact, RemoveLeases, Differences;
    match c {
      case Put(key, value) => WriteDiffers(d, limits, key, value);
      case Erase(key) => EraseOneDiffers(d, limits, key);
      case CompareAndSet(key, _, value) =>
        if Run(d, limits, c).events.Some? { WriteDiffers(d, limits, key, value); }
        else { ComparedOnly(d, limits, c); }
      case Transact(t) => TransactionDiffers(d, limits, t);
      case Revoke(tick, id, _) =>
        if id in d.leases && d.leases[id].token == c.token { CleanupDiffers(d, limits, {id}, tick); }
      case Expire(tick) => CleanupDiffers(d, limits, ExpiredIds(d.leases, tick), tick);
      case Grant(_, _, _) =>
      case KeepAlive(_, _, _) =>
      case Get(_) =>
      case TimeToLive(_, _) =>
    }
  }

  lemma ComparedOnly(d: Data, limits: Limits, c: StoreCommand)
    requires c.CompareAndSet? && Run(d, limits, c).Done? && Run(d, limits, c).events.None?
    ensures Run(d, limits, c).data == d
  {
  }

  // ---- Runs of commands and watches ----------------------------------------

  /** The store with its watches and their past. */
  datatype Store = Store(data: Data, trace: Trace)

  datatype StoreAction = Act(command: StoreCommand) | Watching(action: Action)

  function StoreStep(s: Store, limits: Limits, a: StoreAction): Store {
    match a
    case Act(c) =>
      var r := Run(s.data, limits, c);
      if r.Refused? then s
      else if r.events.None? then s.(data := r.data)
      else Store(r.data, StoreWatch.Step(s.trace, limits, Publication(r.events.value)))
    case Watching(action) =>
      if action.Publication? then s else s.(trace := StoreWatch.Step(s.trace, limits, action))
  }

  function StoreAfter(limits: Limits, actions: seq<StoreAction>): Store {
    if actions == [] then Store(EMPTY, NEW)
    else StoreStep(StoreAfter(limits, actions[..|actions| - 1]), limits, actions[|actions| - 1])
  }

  function ReplayLog(values: map<Key, KeyValue>, log: seq<Batch>): map<Key, KeyValue> {
    if log == [] then values
    else Replay(ReplayLog(values, log[..|log| - 1]), log[|log| - 1].events)
  }

  predicate FromsOk(t: Trace) {
    forall id :: id in t.feed.watchers ==> 1 <= t.feed.watchers[id].request.from <= Revision(t) + 1
  }

  ghost predicate StoreInv(s: Store, limits: Limits) {
    && DataInv(s.data, limits) && TraceInv(s.trace, limits) && s.trace.base == 0
    && Revision(s.trace) == s.data.revision && FromsOk(s.trace)
    && s.data.values == ReplayLog(map[], s.trace.log)
  }

  lemma DeliverKeepsFrom(w: Watch, b: Batch, limits: Limits)
    ensures Deliver(w, b, limits).request == w.request
  {
  }

  lemma WatchStepFroms(t: Trace, limits: Limits, a: Action)
    requires FromsOk(t) && 0 <= t.feed.compact
    ensures FromsOk(StoreWatch.Step(t, limits, a))
    ensures StoreWatch.Step(t, limits, a).base == t.base
    ensures !a.Publication? ==> StoreWatch.Step(t, limits, a).log == t.log
    ensures a.Publication? ==> StoreWatch.Step(t, limits, a).log == t.log + [Batch(Revision(t) + 1, a.events)]
  {
    hide Expected, Deliver, Trim;
    if a.Publication? {
      var b := Batch(Revision(t) + 1, a.events);
      forall id | id in t.feed.watchers
        ensures Deliver(t.feed.watchers[id], b, limits).request == t.feed.watchers[id].request
      {
        DeliverKeepsFrom(t.feed.watchers[id], b, limits);
      }
    }
  }

  lemma StoreStepKeeps(s: Store, limits: Limits, a: StoreAction)
    requires StoreInv(s, limits)
    ensures StoreInv(StoreStep(s, limits, a), limits)
  {
    hide DataInv, TraceInv, StoreModel.Run, StoreWatch.Step, Replay, FromsOk;
    assert 0 <= s.trace.feed.compact by { CompactNatural(s.trace, limits); }
    match a {
      case Act(c) =>
        var r := Run(s.data, limits, c);
        RunKeeps(s.data, limits, c);
        if r.Done? {
          EventsAreDifferences(s.data, limits, c);
          if r.events.Some? {
            var p := Publication(r.events.value);
            StepKeeps(s.trace, limits, p);
            WatchStepFroms(s.trace, limits, p);
            ReplayMakesDifferences(s.data.values, r.data.values, r.data.revision, r.events.value);
            var log, b := s.trace.log, Batch(Revision(s.trace) + 1, r.events.value);
            assert (log + [b])[..|log|] == log;
          }
        }
      case Watching(action) =>
        StepKeeps(s.trace, limits, action);
        WatchStepFroms(s.trace, limits, action);
    }
  }

  lemma CompactNatural(t: Trace, limits: Limits)
    requires TraceInv(t, limits) && t.base == 0
    ensures 0 <= t.feed.compact
  {
    hide WatchesOk, LogOk;
  }

  lemma StartIsRebuilt(limits: Limits)
    ensures StoreInv(Store(EMPTY, NEW), limits)
  {
    hide DataInv, TraceInv;
    EmptyIsValid(limits);
    NewIsValid(limits);
  }

  lemma {:induction false} StoreRunKeeps(limits: Limits, actions: seq<StoreAction>)
    ensures StoreInv(StoreAfter(limits, actions), limits)
  {
    hide StoreStep, StoreInv;
    if actions == [] {
      StartIsRebuilt(limits);
    } else {
      StoreRunKeeps(limits, actions[..|actions| - 1]);
      StoreStepKeeps(StoreAfter(limits, actions[..|actions| - 1]), limits, actions[|actions| - 1]);
    }
  }

  lemma {:induction false} ReplayLogAppend(values: map<Key, KeyValue>, a: seq<Batch>, b: seq<Batch>)
    ensures ReplayLog(values, a + b) == ReplayLog(ReplayLog(values, a), b)
  {
    hide Replay;
    if b == [] {
      assert a + b == a;
    } else {
      var n := |b| - 1;
      assert (a + b)[..|a| + n] == a + b[..n] && (a + b)[|a| + n] == b[n];
      ReplayLogAppend(values, a, b[..n]);
    }
  }

  // ---- Rebuilding from the log ---------------------------------------------

  /** The batches published so far rebuild the store, and those up to any earlier revision
      rebuild what the store was at that revision. */
  lemma {:induction false} LogRebuildsStore(limits: Limits, actions: seq<StoreAction>, i: nat)
    requires i <= |actions|
    ensures var s, s' := StoreAfter(limits, actions[..i]), StoreAfter(limits, actions);
      && 0 <= s.data.revision <= |s'.trace.log| == s'.data.revision
      && s.data.values == ReplayLog(map[], s'.trace.log[..s.data.revision])
  {
    hide StoreStep, ReplayLog, DataInv, TraceInv;
    StoreRunKeeps(limits, actions[..i]);
    StoreRunKeeps(limits, actions);
    LogGrows(limits, actions, i);
    var s, s' := StoreAfter(limits, actions[..i]), StoreAfter(limits, actions);
    assert s'.trace.log[..|s.trace.log|] == s.trace.log;
  }

  lemma {:induction false} LogGrows(limits: Limits, actions: seq<StoreAction>, i: nat)
    requires i <= |actions|
    ensures StoreAfter(limits, actions[..i]).trace.log <= StoreAfter(limits, actions).trace.log
    decreases |actions| - i
  {
    hide StoreStep;
    if i == |actions| {
      assert actions[..i] == actions;
    } else {
      LogGrows(limits, actions, i + 1);
      assert actions[..i + 1][..i] == actions[..i];
      StoreRunKeeps(limits, actions[..i]);
      LogStep(StoreAfter(limits, actions[..i]), limits, actions[i]);
    }
  }

  lemma LogStep(s: Store, limits: Limits, a: StoreAction)
    requires StoreInv(s, limits)
    ensures s.trace.log <= StoreStep(s, limits, a).trace.log
  {
    hide DataInv, TraceInv, StoreModel.Run, StoreWatch.Step, FromsOk, ReplayLog;
    CompactNatural(s.trace, limits);
    match a {
      case Act(c) =>
        var r := Run(s.data, limits, c);
        if r.Done? && r.events.Some? { WatchStepFroms(s.trace, limits, Publication(r.events.value)); }
      case Watching(action) => WatchStepFroms(s.trace, limits, action);
    }
  }

  // ---- Rebuilding from a watch ---------------------------------------------

  predicate Watched(r: WatchRequest, k: Key) {
    if r.end == [] then k == r.start else AtMost(r.start, k) && Less(k, r.end)
  }

  function Within(values: map<Key, KeyValue>, r: WatchRequest): map<Key, KeyValue> {
    map k | k in values && Watched(r, k) :: values[k]
  }

  function ReplayDeliveries(values: map<Key, KeyValue>, ds: seq<Delivery>): map<Key, KeyValue> {
    if ds == [] then values
    else Replay(ReplayDeliveries(values, ds[..|ds| - 1]), ds[|ds| - 1].events)
  }

  lemma {:induction false} MatchingRebuilds(values: map<Key, KeyValue>, r: WatchRequest, events: seq<Event>)
    requires r.filter.NoFilter?
    ensures Replay(Within(values, r), Matching(r, events)) == Within(Replay(values, events), r)
  {
    if events != [] {
      var n := |events| - 1;
      var e := events[n];
      MatchingRebuilds(values, r, events[..n]);
      var before, front := Replay(values, events[..n]), Matching(r, events[..n]);
      OneEventWithin(before, r, e);
      if Interested(r, e) {
        assert (front + [e])[..|front|] == front;
      } else {
        assert front + [] == front;
      }
    }
  }

  lemma OneEventWithin(values: map<Key, KeyValue>, r: WatchRequest, e: Event)
    requires r.filter.NoFilter?
    ensures Interested(r, e) <==> Watched(r, EventKey(e))
    ensures Within(Applied(values, e), r)
        == if Interested(r, e) then Applied(Within(values, r), e) else Within(values, r)
  {
    hide AtMost, Less;
  }

  lemma {:induction false} EventsOnlyRebuild(values: map<Key, KeyValue>, ds: seq<Delivery>)
    ensures ReplayDeliveries(values, EventsOnly(ds)) == ReplayDeliveries(values, ds)
  {
    if ds != [] {
      var n := |ds| - 1;
      EventsOnlyRebuild(values, ds[..n]);
      var front := EventsOnly(ds[..n]);
      if ds[n].events != [] {
        assert (front + [ds[n]])[..|front|] == front;
      } else {
        assert front + [] == front;
      }
    }
  }

  lemma OneMoreDelivery(values: map<Key, KeyValue>, ds: seq<Delivery>, more: seq<Delivery>)
    requires |more| <= 1
    ensures ReplayDeliveries(values, ds + more)
         == (if more == [] then ReplayDeliveries(values, ds) else Replay(ReplayDeliveries(values, ds), more[0].events))
  {
    if more == [] {
      assert ds + more == ds;
    } else {
      assert (ds + more)[..|ds|] == ds;
    }
  }

  lemma ResponseRebuilds(values: map<Key, KeyValue>, r: WatchRequest, b: Batch)
    requires r.filter.NoFilter? && r.from <= b.revision
    ensures var more := ResponsesTo(r, b);
      |more| <= 1
      && Within(Replay(values, b.events), r)
         == if more == [] then Within(values, r) else Replay(Within(values, r), more[0].events)
  {
    hide Matching, Within;
    MatchingRebuilds(values, r, b.events);
  }

  lemma {:induction false} ExpectedRebuilds(values: map<Key, KeyValue>, r: WatchRequest, log: seq<Batch>)
    requires r.filter.NoFilter? && forall i :: 0 <= i < |log| ==> r.from <= log[i].revision
    ensures ReplayDeliveries(Within(values, r), Expected(r, log)) == Within(ReplayLog(values, log), r)
  {
    hide ResponsesTo, Within, Replay, ReplayDeliveries;
    if log == [] {
      NoDeliveries(Within(values, r));
    } else {
      var n := |log| - 1;
      ExpectedRebuilds(values, r, log[..n]);
      ResponseRebuilds(ReplayLog(values, log[..n]), r, log[n]);
      OneMoreDelivery(Within(values, r), Expected(r, log[..n]), ResponsesTo(r, log[n]));
    }
  }

  lemma NoDeliveries(values: map<Key, KeyValue>)
    ensures ReplayDeliveries(values, []) == values
  {
  }

  /** In every run of commands and watch requests, what a live unfiltered watch has handed out and
      holds, replayed on the watched keys as they were before its first revision, gives the
      watched keys as they are now. */
  lemma WatchRebuildsRange(limits: Limits, actions: seq<StoreAction>, id: int)
    requires var f := StoreAfter(limits, actions).trace.feed;
      id in f.watchers && f.watchers[id].terminal.None? && f.watchers[id].request.filter.NoFilter?
    ensures var s := StoreAfter(limits, actions); var w := s.trace.feed.watchers[id]; var r := w.request;
      && id in s.trace.polled && 1 <= r.from <= |s.trace.log| + 1
      && ReplayDeliveries(Within(ReplayLog(map[], s.trace.log[..r.from - 1]), r), s.trace.polled[id] + w.pending)
         == Within(s.data.values, r)
  {
    hide StoreStep, DataInv, ReplayLog, ReplayDeliveries, Within, EventsOnly, Expected;
    StoreRunKeeps(limits, actions);
    var s := StoreAfter(limits, actions);
    var w, log := s.trace.feed.watchers[id], s.trace.log;
    var r := w.request;
    var early, late := log[..r.from - 1], log[r.from - 1..];
    assert log == early + late;
    var was := ReplayLog(map[], early);
    ReplayLogAppend(map[], early, late);
    ExpectedAppend(r, early, late);
    ExpectedBefore(r, early);
    assert [] + Expected(r, late) == Expected(r, late);
    ExpectedRebuilds(was, r, late);
    EventsOnlyRebuild(Within(was, r), Expected(r, late));
    EventsOnlyRebuild(Within(was, r), s.trace.polled[id] + w.pending);
  }
}
