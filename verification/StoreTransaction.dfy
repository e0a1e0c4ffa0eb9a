/** What a transaction means to a caller: which branch is taken, when it is refused, what it leaves,
    and what each of its operations answers. */
module StoreTransaction {
  import opened RaftTypes
  import opened ByteCodec
  import opened KeyOrder
  import opened StoreModel
  import opened StoreProofs
  import opened StoreMeaning

  // ---- The comparisons -----------------------------------------------------

  /** A comparison names a key, and a number or bytes to match its target. */
  predicate WellTyped(c: Compare) {
    c.key != [] && (c.target.Value? <==> c.expected.Text?)
  }

  predicate NumbersRelate(relation: Relation, a: int, b: int) {
    match relation
    case Equal => a == b
    case NotEqual => a != b
    case Greater => a > b
    case Lesser => a < b
  }

  predicate BytesRelate(relation: Relation, a: Bytes, b: Bytes) {
    match relation
    case Equal => a == b
    case NotEqual => a != b
    case Greater => Less(b, a)
    case Lesser => Less(a, b)
  }

  /** The key's own version, revisions, lease or bytes stand in the relation to what was expected; a
      key that is not there counts as 0 and as no bytes. */
  predicate True(values: map<Key, KeyValue>, c: Compare)
    requires WellTyped(c)
  {
    if c.key in values then
      var v := values[c.key];
      if c.target.Value? then BytesRelate(c.relation, v.value, c.expected.text)
      else if c.target.Version? then NumbersRelate(c.relation, v.version, c.expected.number)
      else if c.target.Created? then NumbersRelate(c.relation, v.created, c.expected.number)
      else if c.target.Modified? then NumbersRelate(c.relation, v.modified, c.expected.number)
      else NumbersRelate(c.relation, v.lease, c.expected.number)
    else if c.target.Value? then BytesRelate(c.relation, [], c.expected.text)
    else NumbersRelate(c.relation, 0, c.expected.number)
  }

  lemma BytesCompare(relation: Relation, a: Bytes, b: Bytes)
    ensures Relates(relation, a == b, Less(b, a)) <==> BytesRelate(relation, a, b)
  {
    LessTotal(a, b);
    LessIrreflexive(a);
    if Less(a, b) && Less(b, a) { LessTransitive(a, b, a); }
  }

  lemma ComparisonMeans(values: map<Key, KeyValue>, c: Compare)
    ensures Holds(values, c).Some? <==> WellTyped(c)
    ensures WellTyped(c) ==> (Holds(values, c).value <==> True(values, c))
  {
    if WellTyped(c) && c.target.Value? {
      BytesCompare(c.relation, if c.key in values then values[c.key].value else [], c.expected.text);
    }
  }

  lemma {:induction false} ComparisonsMean(values: map<Key, KeyValue>, cs: seq<Compare>)
    ensures AllHold(values, cs).Some? <==> forall i :: 0 <= i < |cs| ==> WellTyped(cs[i])
    ensures AllHold(values, cs).Some? ==>
      (AllHold(values, cs).value <==> forall i :: 0 <= i < |cs| ==> True(values, cs[i]))
  {
    hide Holds, True, WellTyped;
    if cs != [] {
      var n := |cs| - 1;
      ComparisonsMean(values, cs[..n]);
      ComparisonMeans(values, cs[n]);
      assert forall i :: 0 <= i < n ==> cs[i] == cs[..n][i];
    }
  }

  // ---- The branch ----------------------------------------------------------

  predicate LiveFor(d: Data, tick: nat, o: Ownership) {
    Live(d, tick, o.id) && d.leases[o.id].token == o.token
  }

  /** The comparisons are well formed, and so are the ownerships, at a tick that is not in the past. */
  predicate RequestOk(d: Data, t: Txn) {
    && (forall i :: 0 <= i < |t.comparisons| ==> WellTyped(t.comparisons[i]))
    && (forall i :: 0 <= i < |t.ownership| ==> 0 < t.ownership[i].id && t.ownership[i].token != 0)
    && (t.ownership != [] ==> d.tick <= t.tick)
  }

  /** Everything that the transaction asked for is the case. */
  predicate Condition(d: Data, t: Txn)
    requires RequestOk(d, t)
  {
    && (forall i :: 0 <= i < |t.comparisons| ==> True(d.values, t.comparisons[i]))
    && (forall i :: 0 <= i < |t.ownership| ==> LiveFor(d, t.tick, t.ownership[i]))
  }

  function Chosen(d: Data, t: Txn): seq<Op>
    requires RequestOk(d, t)
  {
    if Condition(d, t) then t.success else t.failure
  }

  /** A put may attach its key to no lease, or to one that the transaction has shown to own. */
  predicate MayAttach(d: Data, t: Txn, lease: int) {
    lease == 0 || exists i :: 0 <= i < |t.ownership| && LiveFor(d, t.tick, t.ownership[i]) && t.ownership[i].id == lease
  }

  predicate FormOk(d: Data, t: Txn, op: Op) {
    match op
    case RangeOp(range, _, at) => RangeOk(range) && at == 0
    case PutOp(key, _, lease, _) => key != [] && 0 <= lease && MayAttach(d, t, lease)
    case DeleteOp(range, _) => RangeOk(range)
  }

  predicate Exhausts(d: Data, op: Op) {
    op.PutOp? && op.key in d.values && d.values[op.key].version == INT64_MAX
  }

  /** The operations up to `n` can stand in one transaction: no key is written twice. */
  predicate Accepted(d: Data, t: Txn, ops: seq<Op>, n: nat)
    requires n <= |ops|
  {
    && (forall i :: 0 <= i < n ==> FormOk(d, t, ops[i]) && !Exhausts(d, ops[i]))
    && (forall i, j :: 0 <= i < j < n ==> Compatible(ops[i], ops[j]))
  }

  /** The first operation that cannot stand decides the error. */
  predicate RefusedAt(d: Data, t: Txn, ops: seq<Op>, n: nat, error: Error) {
    && n < |ops| && Accepted(d, t, ops, n) && !Accepted(d, t, ops, n + 1)
    && (if FormOk(d, t, ops[n]) && forall i :: 0 <= i < n ==> Compatible(ops[i], ops[n]) then error == Exhausted
        else error == Invalid)
  }

  /** Some operation of the branch puts a key, or deletes one that is there. */
  predicate Effective(d: Data, ops: seq<Op>) {
    exists i :: 0 <= i < |ops| && Acts(d.values, ops[i])
  }

  // ---- The answers ---------------------------------------------------------

  /** Exactly the values in the range, in key order. */
  ghost predicate AllInRange(values: map<Key, KeyValue>, range: KeyRange, found: seq<KeyValue>) {
    && (forall i :: 0 <= i < |found| ==> InRange(range, found[i].key) && Lookup(values, found[i].key) == Some(found[i]))
    && (forall k :: k in values && InRange(range, k) ==> values[k] in found)
    && (forall i, j :: 0 <= i < j < |found| ==> Less(found[i].key, found[j].key))
  }

  /** A put answers what it stored and what was there before, a delete what it removed; a read sees
      the writes of the operations before it, and no more than its limit. */
  ghost predicate Answers(was: map<Key, KeyValue>, ops: seq<Op>, i: nat, revision: int, r: Response)
    requires i < |ops|
  {
    match ops[i]
    case PutOp(key, value, lease, wantPrevious) =>
      && r.PutResponse? && r.revision == revision
      && StoredAs(Lookup(was, key), key, value, lease, revision, r.current)
      && r.before == (if wantPrevious then Lookup(was, key) else None)
    case DeleteOp(range, wantPrevious) =>
      && r.DeleteResponse? && r.revision == revision
      && exists all :: AllInRange(was, range, all) && r.count == |all| && r.removed == if wantPrevious then all else []
    case RangeOp(range, limit, _) =>
      && r.RangeResponse? && r.revision == revision
      && exists mid, all :: WrittenAtOnce(was, ops[..i], revision, mid) && AllInRange(mid, range, all)
           && r.found == if limit == 0 || |all| <= limit then all else all[..limit]
  }

  /** The values that the branch leaves: what was put, without what was deleted, over what was there. */
  ghost predicate Leaves(was: map<Key, KeyValue>, ops: seq<Op>, revision: int, now: map<Key, KeyValue>) {
    && (forall i :: 0 <= i < |ops| && ops[i].PutOp? ==>
          && ops[i].key in now
          && StoredAs(Lookup(was, ops[i].key), ops[i].key, ops[i].value, ops[i].lease, revision, now[ops[i].key]))
    && (forall k :: !PutsKey(ops, k) ==> (k in now <==> k in was && !DeletesKey(ops, k)))
    && (forall k :: k in now && !PutsKey(ops, k) ==> now[k] == was[k])
  }

  ghost predicate TransactionMeans(was: Data, t: Txn, reply: Reply, now: Data) {
    if !RequestOk(was, t) then reply == Failed(Invalid) && now == was
    else
      var ops := Chosen(was, t);
      if !Accepted(was, t, ops, |ops|) then
        reply.Failed? && now == was && exists n :: RefusedAt(was, t, ops, n, reply.error)
      else if Effective(was, ops) && was.revision == INT64_MAX then reply == Failed(Exhausted) && now == was
      else
        && now.revision == was.revision + (if Effective(was, ops) then 1 else 0)
        && reply.Ok? && reply.answer.Transacted? && reply.answer.revision == now.revision
        && (reply.answer.succeeded <==> Condition(was, t))
        && Leaves(was.values, ops, now.revision, now.values)
        && |reply.answer.responses| == |ops|
        && (forall i :: 0 <= i < |ops| ==> Answers(was.values, ops, i, now.revision, reply.answer.responses[i]))
        && SameLeases(was.leases, now.leases) && Agree(now.values, now.leases)
        && now.tick == (if t.ownership == [] then was.tick else t.tick)
        && now.nextLease == was.nextLease && now.nextToken == was.nextToken
  }

  // ---- The first pass ------------------------------------------------------

  lemma ConditionIs(d: Data, t: Txn)
    requires RequestOk(d, t)
    ensures AllHold(d.values, t.comparisons).Some?
    ensures Succeeds(d, t, AllHold(d.values, t.comparisons).value) <==> Condition(d, t)
  {
    hide True, WellTyped;
    ComparisonsMean(d.values, t.comparisons);
    assert forall i :: 0 <= i < |t.ownership| ==>
        LiveFor(d, t.tick, t.ownership[i]) == Owns(d.leases, t.tick, t.ownership[i]);
  }

  lemma MayAttachIs(d: Data, t: Txn, lease: int)
    ensures MayAttach(d, t, lease) <==> lease == 0 || lease in Verified(d.leases, t.tick, t.ownership)
  {
    var os := t.ownership;
    assert forall i :: 0 <= i < |os| ==> LiveFor(d, t.tick, os[i]) == Owns(d.leases, t.tick, os[i]);
    if i :| 0 <= i < |os| && LiveFor(d, t.tick, os[i]) && os[i].id == lease {
      assert os[i] in os && Owns(d.leases, t.tick, os[i]);
    }
    if lease in Verified(d.leases, t.tick, os) {
      var o :| o in os && Owns(d.leases, t.tick, o) && o.id == lease;
      var i :| 0 <= i < |os| && os[i] == o;
      assert LiveFor(d, t.tick, os[i]);
    }
  }

  lemma FormIs(d: Data, t: Txn, op: Op)
    ensures OpOk(d.values, Verified(d.leases, t.tick, t.ownership), op) <==> FormOk(d, t, op) && !Exhausts(d, op)
  {
    hide MayAttach, Verified;
    if op.PutOp? { MayAttachIs(d, t, op.lease); }
  }

  lemma AcceptedIs(d: Data, t: Txn, ops: seq<Op>)
    ensures Accepted(d, t, ops, |ops|) <==> PlanAll(d.values, Verified(d.leases, t.tick, t.ownership), ops).Good?
  {
    hide PlanAll, Compatible, FormOk, Exhausts, OpOk, Verified;
    PlanGoodIff(d.values, Verified(d.leases, t.tick, t.ownership), ops);
    forall i | 0 <= i < |ops|
      ensures OpOk(d.values, Verified(d.leases, t.tick, t.ownership), ops[i])
           <==> FormOk(d, t, ops[i]) && !Exhausts(d, ops[i])
    {
      FormIs(d, t, ops[i]);
    }
    forall i, j | 0 <= i < |ops| && 0 <= j < |ops| ensures Compatible(ops[i], ops[j]) == Compatible(ops[j], ops[i]) {
      CompatibleSymmetric(ops[i], ops[j]);
    }
  }

  lemma PrefixAccepted(d: Data, t: Txn, ops: seq<Op>, n: nat, m: nat)
    requires n <= m <= |ops|
    ensures Accepted(d, t, ops[..m], n) == Accepted(d, t, ops, n)
  {
    hide Compatible, FormOk, Exhausts;
    assert forall i :: 0 <= i < m ==> ops[..m][i] == ops[i];
  }

  /** The error of the last operation, after a front that can stand. */
  lemma LastError(d: Data, t: Txn, front: seq<Op>, op: Op)
    requires PlanAll(d.values, Verified(d.leases, t.tick, t.ownership), front).Good?
    ensures var verified := Verified(d.leases, t.tick, t.ownership);
      var error := PlanError(d.values, verified, PlanAll(d.values, verified, front).plan, op);
      error.Some? ==>
        error.value == if FormOk(d, t, op) && forall i :: 0 <= i < |front| ==> Compatible(front[i], op) then Exhausted
                       else Invalid
  {
    hide PlanAll, MayAttach, Verified;
    var verified := Verified(d.leases, t.tick, t.ownership);
    LastCompatible(d.values, verified, front, op);
    if op.PutOp? {
      MayAttachIs(d, t, op.lease);
      PutConflicts(d.values, verified, front, op);
    }
  }

  lemma PutConflicts(values: map<Key, KeyValue>, verified: set<int>, front: seq<Op>, op: Op)
    requires PlanAll(values, verified, front).Good? && op.PutOp?
    ensures var p := PlanAll(values, verified, front).plan;
      (op.key in p.puts || exists r :: r in p.deletes && InRange(r, op.key)) <==>
        !forall i :: 0 <= i < |front| ==> Compatible(front[i], op)
  {
    PlannedOps(values, verified, front);
    hide PlanAll;
    var p, key := PlanAll(values, verified, front).plan, op.key;
    assert key in p.puts <==> exists i :: 0 <= i < |front| && front[i].PutOp? && front[i].key == key;
    assert (exists r :: r in p.deletes && InRange(r, key)) <==>
           exists i :: 0 <= i < |front| && front[i].DeleteOp? && InRange(front[i].range, key);
  }

  lemma {:induction false} RefusedWhere(d: Data, t: Txn, ops: seq<Op>) returns (n: nat)
    requires PlanAll(d.values, Verified(d.leases, t.tick, t.ownership), ops).Bad?
    ensures RefusedAt(d, t, ops, n, PlanAll(d.values, Verified(d.leases, t.tick, t.ownership), ops).error)
  {
    hide Verified, PlanError, Compatible, FormOk, Exhausts, Accepted;
    var m := |ops| - 1;
    var front := ops[..m];
    if PlanAll(d.values, Verified(d.leases, t.tick, t.ownership), front).Bad? {
      n := RefusedWhere(d, t, front);
      PrefixAccepted(d, t, ops, n, m);
      PrefixAccepted(d, t, ops, n + 1, m);
      assert forall i :: 0 <= i < m ==> front[i] == ops[i];
    } else {
      n := m;
      AcceptedIs(d, t, front);
      AcceptedIs(d, t, ops);
      PrefixAccepted(d, t, ops, m, m);
      LastError(d, t, front, ops[m]);
      assert forall i :: 0 <= i < m ==> front[i] == ops[i];
    }
  }

  // ---- The second pass -----------------------------------------------------

  lemma ListedInRange(values: map<Key, KeyValue>, range: KeyRange)
    requires forall k :: k in values ==> values[k].key == k
    ensures AllInRange(values, range, Listed(values, Sorted(KeysIn(values, range))))
  {
    hide InRange, Less;
    var keys := Sorted(KeysIn(values, range));
    var found := Listed(values, keys);
    forall i | 0 <= i < |found|
      ensures found[i].key == keys[i] && InRange(range, found[i].key) && Lookup(values, found[i].key) == Some(found[i])
    {
      assert keys[i] in keys;
    }
    forall k | k in values && InRange(range, k) ensures values[k] in found {
      assert k in keys;
      var i :| 0 <= i < |keys| && keys[i] == k;
      assert found[i] == values[k];
    }
  }

  lemma SameInRange(a: map<Key, KeyValue>, b: map<Key, KeyValue>, range: KeyRange, found: seq<KeyValue>)
    requires AllInRange(a, range, found) && forall k :: InRange(range, k) ==> Lookup(a, k) == Lookup(b, k)
    ensures AllInRange(b, range, found)
  {
    hide InRange, Less;
    forall k | k in b && InRange(range, k) ensures b[k] in found {
      assert Lookup(a, k) == Lookup(b, k);
    }
  }

  /** The answer of the last operation, whose front has been executed to `w`. */
  lemma LastAnswers(values: map<Key, KeyValue>, verified: set<int>, revision: int, front: seq<Op>, op: Op, w: Work)
    requires WrittenAtOnce(values, front, revision, w.values) && ValuesOk(w.values, revision)
    requires PlanAll(values, verified, front).Good?
    requires PlanError(values, verified, PlanAll(values, verified, front).plan, op).None?
    requires Execute(w, revision, op).Some?
    ensures var r := Execute(w, revision, op).value.responses;
      && |r| == |w.responses| + 1 && r[..|w.responses|] == w.responses
      && Answers(values, front + [op], |front|, revision, r[|w.responses|])
  {
    hide PlanAll, PlanError, WrittenAtOnce, InRange, PutsKey, DeletesKey, AllInRange, Relink, DetachAll;
    PlanSeparates(values, verified, front, op);
    var ops := front + [op];
    assert ops[..|front|] == front && ops[|front|] == op;
    match op {
      case PutOp(key, _, _, _) =>
        UntouchedKey(values, front, revision, w.values, key);
      case DeleteOp(range, _) =>
        forall k | InRange(range, k) ensures Lookup(w.values, k) == Lookup(values, k) {
          UntouchedKey(values, front, revision, w.values, k);
        }
        ListedInRange(w.values, range);
        SameInRange(w.values, values, range, Listed(w.values, Sorted(KeysIn(w.values, range))));
      case RangeOp(range, _, _) =>
        ListedInRange(w.values, range);
    }
  }

  lemma EarlierAnswers(values: map<Key, KeyValue>, revision: int, front: seq<Op>, op: Op, i: nat, r: Response)
    requires i < |front| && Answers(values, front, i, revision, r)
    ensures Answers(values, front + [op], i, revision, r)
  {
    hide WrittenAtOnce, AllInRange, StoredAs;
    assert (front + [op])[..i] == front[..i];
  }

  lemma {:induction false} ResponsesMean(values: map<Key, KeyValue>, leases: map<int, Lease>, verified: set<int>,
                                         revision: int, ops: seq<Op>)
    requires ValuesOk(values, revision) && Agree(values, leases) && 0 !in leases && verified <= leases.Keys
    requires PlanAll(values, verified, ops).Good?
    requires PlanAll(values, verified, ops).plan.effective ==> 0 < revision
    ensures var w := ExecuteAll(values, leases, revision, ops);
      && w.Some? && |w.value.responses| == |ops|
      && forall i :: 0 <= i < |ops| ==> Answers(values, ops, i, revision, w.value.responses[i])
  {
    hide Agree, ValuesOk, WrittenAtOnce, Execute, PlanError, Answers;
    if ops != [] {
      var n := |ops| - 1;
      var front, op := ops[..n], ops[n];
      ResponsesMean(values, leases, verified, revision, front);
      ExecutionRefines(values, leases, verified, revision, front);
      ExecutionRefines(values, leases, verified, revision, ops);
      var w := ExecuteAll(values, leases, revision, front).value;
      assert ops == front + [op];
      LastAnswers(values, verified, revision, front, op, w);
      var after := Execute(w, revision, op).value;
      forall i | 0 <= i < |ops| ensures Answers(values, ops, i, revision, after.responses[i]) {
        if i < n {
          assert after.responses[i] == after.responses[..n][i];
          EarlierAnswers(values, revision, front, op, i, w.responses[i]);
        }
      }
    }
  }

  lemma LeavesIs(values: map<Key, KeyValue>, ops: seq<Op>, revision: int, after: map<Key, KeyValue>)
    requires WrittenAtOnce(values, ops, revision, after)
    ensures Leaves(values, ops, revision, after)
  {
    hide PutsKey, DeletesKey;
  }

  // ---- The whole -----------------------------------------------------------

  lemma ExecutedMeans(d: Data, limits: Limits, t: Txn)
    requires DataInv(d, limits) && RequestOk(d, t) && Accepted(d, t, Chosen(d, t), |Chosen(d, t)|)
    ensures var r := DoTransact(d, t);
      && (Effective(d, Chosen(d, t)) && d.revision == INT64_MAX ==> r == Refused(Exhausted))
      && (!(Effective(d, Chosen(d, t)) && d.revision == INT64_MAX) ==>
            r.Done? && TransactionMeans(d, t, ReplyOf(r), DataOf(d, r)))
  {
    hide AllHold, PlanAll, ExecuteAll, Agree, WrittenAtOnce, LeasesOk, SameLeases, Condition, Accepted, Answers,
        Leaves, Effective, Verified, Succeeds, ValuesOk;
    ConditionIs(d, t);
    var ops, verified := Chosen(d, t), Verified(d.leases, t.tick, t.ownership);
    ComparisonsMean(d.values, t.comparisons);
    AcceptedIs(d, t, ops);
    EffectiveIs(d, verified, ops);
    TransactionRefines(d, limits, t);
    NoLeaseZero(d, limits);
    VerifiedLive(d.leases, t.tick, t.ownership);
    var revision := if Effective(d, ops) then d.revision + 1 else d.revision;
    if !(Effective(d, ops) && d.revision == INT64_MAX) {
      ValuesRise(d.values, d.revision, revision);
      ResponsesMean(d.values, d.leases, verified, revision, ops);
      LeavesIs(d.values, ops, revision, DoTransact(d, t).data.values);
    }
  }

  lemma EffectiveIs(d: Data, verified: set<int>, ops: seq<Op>)
    requires PlanAll(d.values, verified, ops).Good?
    ensures PlanAll(d.values, verified, ops).plan.effective <==> Effective(d, ops)
  {
    EffectiveIff(d.values, verified, ops);
  }

  lemma TransactionIsMeant(d: Data, limits: Limits, t: Txn)
    requires DataInv(d, limits)
    ensures var r := Run(d, limits, Transact(t)); TransactionMeans(d, t, ReplyOf(r), DataOf(d, r))
  {
    hide DataInv, DoTransact, Accepted, Answers, Leaves, Effective, Condition, RequestOk;
    if !RequestOk(d, t) {
      BadRequest(d, t);
    } else if !Accepted(d, t, Chosen(d, t), |Chosen(d, t)|) {
      var n := BadBranch(d, t);
    } else {
      ExecutedMeans(d, limits, t);
    }
  }

  lemma BadRequest(d: Data, t: Txn)
    requires !RequestOk(d, t)
    ensures DoTransact(d, t) == Refused(Invalid)
  {
    ComparisonsMean(d.values, t.comparisons);
    hide AllHold, PlanAll, ExecuteAll, WellTyped, Verified;
  }

  lemma BadBranch(d: Data, t: Txn) returns (n: nat)
    requires RequestOk(d, t) && !Accepted(d, t, Chosen(d, t), |Chosen(d, t)|)
    ensures DoTransact(d, t).Refused? && RefusedAt(d, t, Chosen(d, t), n, DoTransact(d, t).error)
  {
    hide AllHold, PlanAll, ExecuteAll, Accepted, Verified, Condition, Succeeds, RefusedAt, WellTyped;
    ConditionIs(d, t);
    AcceptedIs(d, t, Chosen(d, t));
    n := RefusedWhere(d, t, Chosen(d, t));
  }
}
