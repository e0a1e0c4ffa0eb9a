/** The memoised, budgeted search, against the plain definition "some legal order exists". */
module LinearSearch {
  import opened RaftTypes
  import opened LinearModel

  /** `predecessors` are the operations that completed before this one was invoked. */
  datatype SearchOp = SearchOp(
    operation: Operation, expected: Option<Result>, required: bool, predecessors: set<nat>)

  datatype Limits = Limits(maxOperations: nat, maxStates: nat, maxMemo: nat)

  datatype Outcome = Linearizable | NotLinearizable | Inconclusive

  // ---- The definition ------------------------------------------------------

  predicate Indices(ops: seq<SearchOp>, some: set<nat>) {
    forall i :: i in some ==> i < |ops|
  }

  /** Precedence is a strict order, as precedence of intervals is. */
  predicate StrictOrder(ops: seq<SearchOp>) {
    && (forall i :: 0 <= i < |ops| ==> Indices(ops, ops[i].predecessors) && i !in ops[i].predecessors)
    && (forall i, j :: 0 <= i < |ops| && j in ops[i].predecessors && j < |ops| ==>
          ops[j].predecessors <= ops[i].predecessors)
  }

  /** An order of some of the remaining operations, with every required one, in which nothing
      comes before one of its predecessors. */
  predicate Order(ops: seq<SearchOp>, remaining: set<nat>, order: seq<nat>) {
    && NoDuplicates(order)
    && (forall i :: 0 <= i < |order| ==> order[i] in remaining && order[i] < |ops|)
    && (forall i :: i in remaining && i < |ops| && ops[i].required ==> i in order)
    && (forall i, j :: 0 <= i < j < |order| ==> order[j] !in ops[order[i]].predecessors)
  }

  /** Performing the operations in this order gives every required one its result. */
  predicate Legal(ops: seq<SearchOp>, m: Model, order: seq<nat>)
    requires forall i :: 0 <= i < |order| ==> order[i] < |ops|
    decreases |order|
  {
    order == [] ||
    var op := ops[order[0]];
    var next := Apply(m, op.operation, if op.required then op.expected else None);
    next.Some? && Legal(ops, next.value, order[1..])
  }

  ghost predicate Explainable(ops: seq<SearchOp>, remaining: set<nat>, m: Model) {
    exists order :: Order(ops, remaining, order) && Legal(ops, m, order)
  }

  // ---- One step of the search ----------------------------------------------

  predicate Unpreceded(ops: seq<SearchOp>, remaining: set<nat>, i: nat) {
    i in remaining && i < |ops| && ops[i].predecessors * remaining == {}
  }

  function AfterOp(ops: seq<SearchOp>, m: Model, i: nat): Option<Model>
    requires i < |ops|
  {
    Apply(m, ops[i].operation, if ops[i].required then ops[i].expected else None)
  }

  ghost predicate Omittable(ops: seq<SearchOp>, remaining: set<nat>, m: Model, i: nat)
    requires i < |ops|
  {
    !ops[i].required && Explainable(ops, remaining - {i}, m)
  }

  ghost predicate Appliable(ops: seq<SearchOp>, remaining: set<nat>, m: Model, i: nat)
    requires i < |ops|
  {
    AfterOp(ops, m, i).Some? && Explainable(ops, remaining - {i}, AfterOp(ops, m, i).value)
  }

  lemma EmptyIsExplainable(ops: seq<SearchOp>, m: Model)
    ensures Explainable(ops, {}, m)
  {
    assert Order(ops, {}, []) && Legal(ops, m, []);
  }

  lemma OmittingIsSound(ops: seq<SearchOp>, remaining: set<nat>, m: Model, i: nat)
    requires i < |ops| && Omittable(ops, remaining, m, i)
    ensures Explainable(ops, remaining, m)
  {
    var order :| Order(ops, remaining - {i}, order) && Legal(ops, m, order);
    assert Order(ops, remaining, order);
  }

  lemma ApplyingIsSound(ops: seq<SearchOp>, remaining: set<nat>, m: Model, i: nat)
    requires Unpreceded(ops, remaining, i) && Appliable(ops, remaining, m, i)
    ensures Explainable(ops, remaining, m)
  {
    var rest :| Order(ops, remaining - {i}, rest) && Legal(ops, AfterOp(ops, m, i).value, rest);
    var order := [i] + rest;
    forall a, b | 0 <= a < b < |order| ensures order[b] !in ops[order[a]].predecessors {
      if a == 0 {
        assert order[b] == rest[b - 1] && order[b] in remaining;
      }
    }
    assert forall k :: k in rest ==> k in order;
    assert order[1..] == rest;
    assert Order(ops, remaining, order);
  }

  /** Below every remaining operation there is one with no remaining predecessor. */
  lemma {:induction false} MinimalBelow(ops: seq<SearchOp>, remaining: set<nat>, p: nat) returns (c: nat)
    requires StrictOrder(ops) && p in remaining && p < |ops|
    ensures Unpreceded(ops, remaining, c) && (c == p || c in ops[p].predecessors)
    decreases ops[p].predecessors * remaining
  {
    var before := ops[p].predecessors * remaining;
    if before == {} {
      c := p;
    } else {
      var q :| q in before;
      assert ops[q].predecessors <= ops[p].predecessors;
      assert q !in ops[q].predecessors * remaining;
      c := MinimalBelow(ops, remaining, q);
    }
  }

  /** Dropping an operation that the order does not use. */
  lemma UnusedIsOmittable(ops: seq<SearchOp>, remaining: set<nat>, m: Model, order: seq<nat>, c: nat)
    requires Order(ops, remaining, order) && Legal(ops, m, order)
    requires c in remaining && c < |ops| && c !in order
    ensures Omittable(ops, remaining, m, c)
  {
    assert Order(ops, remaining - {c}, order);
  }

  /** Starting with the first operation of the order. */
  lemma FirstIsAppliable(ops: seq<SearchOp>, remaining: set<nat>, m: Model, order: seq<nat>)
    requires Order(ops, remaining, order) && Legal(ops, m, order) && order != []
    ensures Appliable(ops, remaining, m, order[0])
  {
    var rest := order[1..];
    forall i | i in remaining - {order[0]} && i < |ops| && ops[i].required ensures i in rest {
      assert i in order;
    }
    assert Order(ops, remaining - {order[0]}, rest);
  }

  /** If some order works, some step of the search works. Operations that are left out may
      stand between others: their precedence is passed on by transitivity. */
  lemma SomeStepWorks(ops: seq<SearchOp>, remaining: set<nat>, m: Model) returns (c: nat)
    requires StrictOrder(ops) && Indices(ops, remaining) && remaining != {} && Explainable(ops, remaining, m)
    ensures Unpreceded(ops, remaining, c)
    ensures Omittable(ops, remaining, m, c) || Appliable(ops, remaining, m, c)
  {
    var order :| Order(ops, remaining, order) && Legal(ops, m, order);
    if order == [] {
      var p :| p in remaining;
      c := MinimalBelow(ops, remaining, p);
      UnusedIsOmittable(ops, remaining, m, order, c);
    } else if Unpreceded(ops, remaining, order[0]) {
      c := order[0];
      FirstIsAppliable(ops, remaining, m, order);
    } else {
      var first := order[0];
      var p :| p in ops[first].predecessors * remaining;
      c := MinimalBelow(ops, remaining, p);
      assert c in ops[first].predecessors;
      assert c !in order;
      UnusedIsOmittable(ops, remaining, m, order, c);
    }
  }

  // ---- The search ----------------------------------------------------------

  /** No candidate up to `n` leads anywhere. */
  ghost predicate Fruitless(ops: seq<SearchOp>, remaining: set<nat>, m: Model, n: nat) {
    forall i :: 0 <= i < n && i < |ops| && Unpreceded(ops, remaining, i) ==>
      !Omittable(ops, remaining, m, i) && !Appliable(ops, remaining, m, i)
  }

  lemma FruitlessMore(ops: seq<SearchOp>, remaining: set<nat>, m: Model, i: nat)
    requires i < |ops| && Fruitless(ops, remaining, m, i)
    requires Unpreceded(ops, remaining, i) ==> !Omittable(ops, remaining, m, i) && !Appliable(ops, remaining, m, i)
    ensures Fruitless(ops, remaining, m, i + 1)
  {
    hide Omittable, Appliable, Unpreceded;
  }

  lemma FruitlessNone(ops: seq<SearchOp>, remaining: set<nat>, m: Model)
    ensures Fruitless(ops, remaining, m, 0)
  {
  }

  lemma FruitlessMeansNone(ops: seq<SearchOp>, remaining: set<nat>, m: Model)
    requires StrictOrder(ops) && Indices(ops, remaining) && remaining != {}
    requires Fruitless(ops, remaining, m, |ops|)
    ensures !Explainable(ops, remaining, m)
  {
    if Explainable(ops, remaining, m) {
      var c := SomeStepWorks(ops, remaining, m);
      assert false;
    }
  }

  class Context {
    const ops: seq<SearchOp>
    const limits: Limits
    var explored: nat
    var dead: set<(set<nat>, Model)>

    constructor (ops: seq<SearchOp>, limits: Limits)
      ensures this.ops == ops && this.limits == limits && explored == 0 && dead == {}
    {
      this.ops, this.limits := ops, limits;
      explored, dead := 0, {};
    }

    /** Everything remembered as dead is dead. */
    ghost predicate DeadIsRight()
      reads this
    {
      forall k :: k in dead ==> !Explainable(ops, k.0, k.1)
    }

    /** The answer is right, whatever was remembered before, and an answer is withheld only
        when one of the budgets is below what a full search may need: by the number of ways to
        go on, and by the number of places to come to. */
    method Search(remaining: set<nat>, m: Model) returns (outcome: Outcome)
      requires StrictOrder(ops) && Indices(ops, remaining) && DeadIsRight()
      modifies this`explored, this`dead
      ensures DeadIsRight()
      ensures outcome.Linearizable? ==> Explainable(ops, remaining, m)
      ensures outcome.NotLinearizable? ==> !Explainable(ops, remaining, m)
      ensures Bounded(limits, outcome, old(explored), old(dead), explored, dead, Cost(|remaining|), 0)
      ensures Paid(2 * |ops|, limits, outcome, old(explored), old(dead), explored, dead,
                   Reach(ops, remaining, m), |remaining|, 1)
      decreases |remaining|, 1
    {
      hide Explainable, StrictOrder, AfterOp, Cost, Omittable, Appliable, Spent;
      hide Bounded, Paid, ReachBefore, Reach, Tried, Fruitless;
      ghost var k, cost, reach, self := 2 * |ops|, Cost(|remaining|), Reach(ops, remaining, m), (remaining, m);
      ghost var e0, d0, levels := explored, dead, |remaining| - 1;
      PaidNothing(k, limits, e0, d0, reach, |remaining|, 1);
      BoundedNothing(limits, e0, d0, cost);
      if remaining == {} {
        EmptyIsExplainable(ops, m);
        return Linearizable;
      }
      ghost var share := Cost(|remaining| - 1);
      CostUnfolds(|remaining|);
      ReachUnfolds(ops, remaining, m);
      PaidOne(k, limits, e0, d0, reach, |remaining|, self);
      BoundedOne(limits, e0, d0, cost);
      if explored >= limits.maxStates { return Inconclusive; }
      explored := explored + 1;
      if (remaining, m) in dead { return NotLinearizable; }
      if |dead| >= limits.maxMemo { return Inconclusive; }
      var unsure := false;
      PaidStart(k, limits, e0, d0, ReachBefore(ops, remaining, m, 0), levels);
      BoundedStart(limits, e0, d0, Spent(remaining, 0, share)) by { SpentIsBounded(remaining, 0, share); }
      FruitlessNone(ops, remaining, m);
      for i := 0 to |ops|
        invariant DeadIsRight()
        invariant !unsure ==> Fruitless(ops, remaining, m, i)
        invariant Bounded(limits, Doubt(unsure), e0, d0, explored, dead, Spent(remaining, i, share), 1)
        invariant Paid(k, limits, Doubt(unsure), e0, d0, explored, dead,
                       ReachBefore(ops, remaining, m, i), levels, 1 + 2 * i)
      {
        ghost var e1, d1, sure := explored, dead, Doubt(unsure);
        if i in remaining && ops[i].predecessors * remaining == {} {
          var tried := Try(remaining, m, i);
          TriedBoth(ops, remaining, m, i, limits, sure, tried, e0, d0, e1, d1, explored, dead);
          if tried.Linearizable? { return Linearizable; }
          unsure := unsure || tried.Inconclusive?;
        } else {
          TriedNothing(ops, remaining, m, i, limits, sure, e0, d0, e1, d1);
        }
        if !unsure { FruitlessMore(ops, remaining, m, i); }
      }
      SpentIsBounded(remaining, |ops|, share);
      BoundedAll(limits, Doubt(unsure), e0, d0, explored, dead, Spent(remaining, |ops|, share), cost, self);
      PaidAll(k, limits, Doubt(unsure), e0, d0, explored, dead,
              ReachBefore(ops, remaining, m, |ops|), self, |remaining|);
      if unsure { return Inconclusive; }
      FruitlessMeansNone(ops, remaining, m);
      dead := dead + {(remaining, m)};
      return NotLinearizable;
    }

    /** The two choices at one candidate: leave it out if it may be, or perform it. */
    method Try(remaining: set<nat>, m: Model, i: nat) returns (outcome: Outcome)
      requires StrictOrder(ops) && Indices(ops, remaining) && DeadIsRight()
      requires Unpreceded(ops, remaining, i)
      modifies this`explored, this`dead
      ensures DeadIsRight()
      ensures outcome.Linearizable? ==> Explainable(ops, remaining, m)
      ensures outcome.NotLinearizable? ==> !Omittable(ops, remaining, m, i) && !Appliable(ops, remaining, m, i)
      ensures Bounded(limits, outcome, old(explored), old(dead), explored, dead, 2 * Cost(|remaining| - 1), 0)
      ensures Paid(2 * |ops|, limits, outcome, old(explored), old(dead), explored, dead,
                   Tried(ops, remaining, m, i), |remaining| - 1, 2)
      decreases |remaining|, 0
    {
      hide Explainable, StrictOrder, AfterOp, Cost, Paid, Reach, Bounded;
      var after := remaining - {i};
      Fewer(remaining, i);
      ghost var e0, d0 := explored, dead;
      var omitted := NotLinearizable;
      if ops[i].required {
        NoChoice(ops, limits, e0, d0, |after|);
      } else {
        omitted := Search(after, m);
      }
      ghost var e1, d1 := explored, dead;
      if omitted.Linearizable? {
        OmittingIsSound(ops, remaining, m, i);
        OneChoice(ops, remaining, m, i, limits, e0, d0, e1, d1);
        return Linearizable;
      }
      var next := AfterOp(ops, m, i);
      var applied := NotLinearizable;
      if next.None? {
        NoChoice(ops, limits, e1, d1, |after|);
      } else {
        applied := Search(after, next.value);
      }
      TwoChoices(ops, remaining, m, i, limits, omitted, applied, e0, d0, e1, d1, explored, dead);
      if applied.Linearizable? {
        ApplyingIsSound(ops, remaining, m, i);
        return Linearizable;
      }
      return Doubt(omitted.Inconclusive? || applied.Inconclusive?);
    }
  }

  /** One candidate more has been tried. */
  lemma TriedBoth(ops: seq<SearchOp>, remaining: set<nat>, m: Model, i: nat, limits: Limits, sure: Outcome,
                  tried: Outcome, e0: nat, d0: set<Place>, e1: nat, d1: set<Place>, e2: nat, d2: set<Place>)
    requires i < |ops| && Unpreceded(ops, remaining, i) && !sure.Linearizable?
    requires Bounded(limits, sure, e0, d0, e1, d1, Spent(remaining, i, Cost(|remaining| - 1)), 1)
    requires Paid(2 * |ops|, limits, sure, e0, d0, e1, d1, ReachBefore(ops, remaining, m, i), |remaining| - 1,
        1 + 2 * i)
    requires Bounded(limits, tried, e1, d1, e2, d2, 2 * Cost(|remaining| - 1), 0)
    requires Paid(2 * |ops|, limits, tried, e1, d1, e2, d2, Tried(ops, remaining, m, i), |remaining| - 1, 2)
    ensures tried.Linearizable? ==>
      && Bounded(limits, tried, e0, d0, e2, d2, Cost(|remaining|), 0)
      && Paid(2 * |ops|, limits, tried, e0, d0, e2, d2, Reach(ops, remaining, m), |remaining|, 1)
    ensures !tried.Linearizable? ==>
      var r := Doubt(sure.Inconclusive? || tried.Inconclusive?);
      && Bounded(limits, r, e0, d0, e2, d2, Spent(remaining, i + 1, Cost(|remaining| - 1)), 1)
      && Paid(2 * |ops|, limits, r, e0, d0, e2, d2, ReachBefore(ops, remaining, m, i + 1), |remaining| - 1, 3 + 2 * i)
  {
    hide Bounded, Paid, Spent, Cost, Reach, ReachBefore, Tried;
    var k, n, share := 2 * |ops|, |remaining| - 1, Cost(|remaining| - 1);
    var before, now := ReachBefore(ops, remaining, m, i), Tried(ops, remaining, m, i);
    SpentGrows(remaining, i, share);
    SpentIsBounded(remaining, i + 1, share);
    CostUnfolds(|remaining|);
    ReachMore(ops, remaining, m, i);
    ReachUnfolds(ops, remaining, m);
    BoundedBoth(limits, sure, tried, e0, d0, e1, d1, e2, d2, Spent(remaining, i, share), 2 * share, 1);
    PaidBoth(k, limits, sure, tried, e0, d0, e1, d1, e2, d2, before, now, n, 1 + 2 * i, 2);
    if tried.Linearizable? {
      BoundedMore(limits, tried, e0, d0, e2, d2, Spent(remaining, i + 1, share), Cost(|remaining|), 1);
      PaidFound(k, limits, e0, d0, e2, d2, before + now, Reach(ops, remaining, m), n, 3 + 2 * i, n + 1, 1);
    }
  }

  lemma TriedNothing(ops: seq<SearchOp>, remaining: set<nat>, m: Model, i: nat, limits: Limits, sure: Outcome,
                     e0: nat, d0: set<Place>, e1: nat, d1: set<Place>)
    requires i < |ops| && remaining != {}
    requires Bounded(limits, sure, e0, d0, e1, d1, Spent(remaining, i, Cost(|remaining| - 1)), 1)
    requires Paid(2 * |ops|, limits, sure, e0, d0, e1, d1, ReachBefore(ops, remaining, m, i), |remaining| - 1,
        1 + 2 * i)
    ensures Bounded(limits, sure, e0, d0, e1, d1, Spent(remaining, i + 1, Cost(|remaining| - 1)), 1)
    ensures Paid(2 * |ops|, limits, sure, e0, d0, e1, d1, ReachBefore(ops, remaining, m, i + 1), |remaining| - 1,
        3 + 2 * i)
  {
    hide Bounded, Paid, Spent, Cost, ReachBefore, Tried;
    var n, share := |remaining| - 1, Cost(|remaining| - 1);
    SpentGrows(remaining, i, share);
    ReachMore(ops, remaining, m, i);
    BoundedMore(limits, sure, e0, d0, e1, d1, Spent(remaining, i, share), Spent(remaining, i + 1, share), 1);
    PaidMore(2 * |ops|, limits, sure, e0, d0, e1, d1, ReachBefore(ops, remaining, m, i),
             ReachBefore(ops, remaining, m, i + 1), n, 1 + 2 * i, 3 + 2 * i);
  }

  lemma NoChoice(ops: seq<SearchOp>, limits: Limits, e: nat, d: set<Place>, n: nat)
    ensures Bounded(limits, NotLinearizable, e, d, e, d, Cost(n), 0)
    ensures Paid(2 * |ops|, limits, NotLinearizable, e, d, e, d, {}, n, 1)
  {
    hide Cost;
    PaidNothing(2 * |ops|, limits, e, d, {}, n, 1);
    BoundedNothing(limits, e, d, Cost(n));
  }

  ghost function LeftOut(ops: seq<SearchOp>, remaining: set<nat>, m: Model, i: nat): set<Place>
    requires i < |ops|
  {
    if ops[i].required then {} else Reach(ops, remaining - {i}, m)
  }

  ghost function Performed(ops: seq<SearchOp>, remaining: set<nat>, m: Model, i: nat): set<Place>
    requires i < |ops|
  {
    if AfterOp(ops, m, i).None? then {} else Reach(ops, remaining - {i}, AfterOp(ops, m, i).value)
  }

  lemma TriedIs(ops: seq<SearchOp>, remaining: set<nat>, m: Model, i: nat)
    requires Unpreceded(ops, remaining, i)
    ensures Tried(ops, remaining, m, i) == LeftOut(ops, remaining, m, i) + Performed(ops, remaining, m, i)
  {
    hide Reach, AfterOp;
  }

  lemma OneChoice(ops: seq<SearchOp>, remaining: set<nat>, m: Model, i: nat, limits: Limits,
                  e0: nat, d0: set<Place>, e1: nat, d1: set<Place>)
    requires Unpreceded(ops, remaining, i)
    requires Bounded(limits, Linearizable, e0, d0, e1, d1, Cost(|remaining| - 1), 0)
    requires Paid(2 * |ops|, limits, Linearizable, e0, d0, e1, d1, LeftOut(ops, remaining, m, i), |remaining| - 1, 1)
    ensures Bounded(limits, Linearizable, e0, d0, e1, d1, 2 * Cost(|remaining| - 1), 0)
    ensures Paid(2 * |ops|, limits, Linearizable, e0, d0, e1, d1, Tried(ops, remaining, m, i), |remaining| - 1, 2)
  {
    hide Bounded, Paid, Cost, LeftOut, Performed, Tried;
    TriedIs(ops, remaining, m, i);
    var n, cost := |remaining| - 1, Cost(|remaining| - 1);
    BoundedMore(limits, Linearizable, e0, d0, e1, d1, cost, 2 * cost, 0);
    PaidFound(2 * |ops|, limits, e0, d0, e1, d1, LeftOut(ops, remaining, m, i), Tried(ops, remaining, m, i), n, 1, n,
        2);
  }

  lemma TwoChoices(ops: seq<SearchOp>, remaining: set<nat>, m: Model, i: nat, limits: Limits, omitted: Outcome,
                   applied: Outcome, e0: nat, d0: set<Place>, e1: nat, d1: set<Place>, e2: nat, d2: set<Place>)
    requires Unpreceded(ops, remaining, i) && !omitted.Linearizable?
    requires Bounded(limits, omitted, e0, d0, e1, d1, Cost(|remaining| - 1), 0)
    requires Bounded(limits, applied, e1, d1, e2, d2, Cost(|remaining| - 1), 0)
    requires Paid(2 * |ops|, limits, omitted, e0, d0, e1, d1, LeftOut(ops, remaining, m, i), |remaining| - 1, 1)
    requires Paid(2 * |ops|, limits, applied, e1, d1, e2, d2, Performed(ops, remaining, m, i), |remaining| - 1, 1)
    ensures var r := if applied.Linearizable? then Linearizable
                     else Doubt(omitted.Inconclusive? || applied.Inconclusive?);
      && Bounded(limits, r, e0, d0, e2, d2, 2 * Cost(|remaining| - 1), 0)
      && Paid(2 * |ops|, limits, r, e0, d0, e2, d2, Tried(ops, remaining, m, i), |remaining| - 1, 2)
  {
    hide Bounded, Paid, Cost, LeftOut, Performed, Tried;
    TriedIs(ops, remaining, m, i);
    var n, cost := |remaining| - 1, Cost(|remaining| - 1);
    BoundedBoth(limits, omitted, applied, e0, d0, e1, d1, e2, d2, cost, cost, 0);
    PaidBoth(2 * |ops|, limits, omitted, applied, e0, d0, e1, d1, e2, d2,
             LeftOut(ops, remaining, m, i), Performed(ops, remaining, m, i), n, 1, 1);
  }

  // ---- What a search may need ----------------------------------------------

  /** The most calls, and so the most remembered states, of a search over `n` operations: at
      each of them the search may leave out or perform any of the remaining ones. */
  function Cost(n: nat): nat {
    if n == 0 then 0 else 1 + 2 * n * Cost(n - 1)
  }

  /** A search of this cost may not fit in what is left of the budgets. */
  predicate TooSmall(limits: Limits, explored: nat, remembered: nat, cost: nat) {
    limits.maxStates < explored + cost || limits.maxMemo < remembered + cost
  }

  /** What a part of the search costs: at most `cost` calls, of which `spare` remember nothing,
      never beyond the budget, and doubt means that a budget is below the cost. */
  ghost predicate Bounded(limits: Limits, r: Outcome, e0: nat, d0: set<Place>, e1: nat, d1: set<Place>, cost: nat,
                          spare: nat) {
    && e0 <= e1 <= e0 + cost && (e1 <= limits.maxStates || e1 == e0)
    && d0 <= d1 && |d1| + spare + e0 <= |d0| + e1
    && (r.Inconclusive? ==> TooSmall(limits, e0, |d0|, cost))
  }

  lemma BoundedNothing(limits: Limits, e: nat, d: set<Place>, cost: nat)
    ensures Bounded(limits, NotLinearizable, e, d, e, d, cost, 0)
    ensures Bounded(limits, Linearizable, e, d, e, d, cost, 0)
  {
  }

  /** The tests at the entry of a call. */
  lemma BoundedOne(limits: Limits, e: nat, d: set<Place>, cost: nat)
    requires cost > 0
    ensures e >= limits.maxStates ==> Bounded(limits, Inconclusive, e, d, e, d, cost, 0)
    ensures e < limits.maxStates ==> Bounded(limits, NotLinearizable, e, d, e + 1, d, cost, 0)
    ensures e < limits.maxStates && |d| >= limits.maxMemo ==> Bounded(limits, Inconclusive, e, d, e + 1, d, cost, 0)
  {
  }

  lemma BoundedStart(limits: Limits, e: nat, d: set<Place>, cost: nat)
    requires cost > 0 && e < limits.maxStates
    ensures Bounded(limits, NotLinearizable, e, d, e + 1, d, cost, 1)
  {
  }

  lemma BoundedMore(limits: Limits, r: Outcome, e0: nat, d0: set<Place>, e1: nat, d1: set<Place>, cost: nat, cost': nat,
                    spare: nat)
    requires Bounded(limits, r, e0, d0, e1, d1, cost, spare) && cost <= cost'
    ensures Bounded(limits, r, e0, d0, e1, d1, cost', spare) && Bounded(limits, r, e0, d0, e1, d1, cost', 0)
  {
  }

  /** Two parts, one after the other. */
  lemma BoundedBoth(limits: Limits, r: Outcome, r': Outcome, e0: nat, d0: set<Place>, e1: nat, d1: set<Place>,
                    e2: nat, d2: set<Place>, cost: nat, cost': nat, spare: nat)
    requires Bounded(limits, r, e0, d0, e1, d1, cost, spare) && Bounded(limits, r', e1, d1, e2, d2, cost', 0)
    requires !r.Linearizable?
    ensures r'.Linearizable? ==> Bounded(limits, Linearizable, e0, d0, e2, d2, cost + cost', spare)
    ensures !r'.Linearizable? ==>
      Bounded(limits, Doubt(r.Inconclusive? || r'.Inconclusive?), e0, d0, e2, d2, cost + cost', spare)
  {
  }

  /** All candidates have been tried: the spare call pays for remembering the place itself. */
  lemma BoundedAll(limits: Limits, r: Outcome, e0: nat, d0: set<Place>, e1: nat, d1: set<Place>, cost: nat, cost': nat,
                   self: Place)
    requires Bounded(limits, r, e0, d0, e1, d1, cost, 1) && cost <= cost'
    ensures Bounded(limits, r, e0, d0, e1, d1, cost', 0) && Bounded(limits, r, e0, d0, e1, d1 + {self}, cost', 0)
  {
    assert |d1 + {self}| <= |d1| + 1 by {
      if self in d1 { assert d1 + {self} == d1; } else { assert |d1 + {self}| == |d1| + 1; }
    }
  }

  /** The calls made before candidate `i`, at most `share` for each of the two choices. */
  ghost function Spent(remaining: set<nat>, i: nat, share: nat): nat {
    1 + 2 * |set j | j in remaining && j < i| * share
  }

  lemma CostUnfolds(n: nat)
    requires n > 0
    ensures Cost(n) == 1 + 2 * n * Cost(n - 1)
  {
  }

  lemma SpentGrows(remaining: set<nat>, i: nat, share: nat)
    ensures Spent(remaining, i + 1, share) == Spent(remaining, i, share) + if i in remaining then 2 * share else 0
  {
    var below, next := set j | j in remaining && j < i, set j | j in remaining && j < i + 1;
    assert next == if i in remaining then below + {i} else below;
  }

  lemma SpentIsBounded(remaining: set<nat>, i: nat, share: nat)
    ensures 1 <= Spent(remaining, i, share) <= 1 + 2 * |remaining| * share
  {
    var below := set j | j in remaining && j < i;
    Larger(below, remaining);
    Product(|below|, |remaining|, share);
  }

  // ---- What a search with its memory may need ------------------------------

  type Place = (set<nat>, Model)

  /** The places a search from here may come to, each counted once. */
  ghost function Reach(ops: seq<SearchOp>, remaining: set<nat>, m: Model): set<Place>
    decreases |remaining|, |ops| + 2
  {
    if remaining == {} then {} else {(remaining, m)} + ReachBefore(ops, remaining, m, |ops|)
  }

  /** Those behind the candidates before `i`. */
  ghost function ReachBefore(ops: seq<SearchOp>, remaining: set<nat>, m: Model, i: nat): set<Place>
    requires i <= |ops|
    decreases |remaining|, i + 1
  {
    if i == 0 then {}
    else
      ReachBefore(ops, remaining, m, i - 1)
      + if Unpreceded(ops, remaining, i - 1) then Tried(ops, remaining, m, i - 1) else {}
  }

  /** Those behind one candidate. */
  ghost function Tried(ops: seq<SearchOp>, remaining: set<nat>, m: Model, i: nat): set<Place>
    requires Unpreceded(ops, remaining, i)
    decreases |remaining|, 0
  {
    Fewer(remaining, i);
    (if ops[i].required then {} else Reach(ops, remaining - {i}, m))
    + if AfterOp(ops, m, i).None? then {} else Reach(ops, remaining - {i}, AfterOp(ops, m, i).value)
  }

  lemma Fewer(remaining: set<nat>, i: nat)
    requires i in remaining
    ensures |remaining - {i}| == |remaining| - 1
  {
  }

  lemma {:induction false} ReachIsBelow(ops: seq<SearchOp>, remaining: set<nat>, m: Model)
    ensures forall p :: p in Reach(ops, remaining, m) ==> |p.0| <= |remaining|
    decreases |remaining|, |ops| + 2
  {
    if remaining != {} { ReachBeforeIsBelow(ops, remaining, m, |ops|); }
  }

  lemma {:induction false} ReachBeforeIsBelow(ops: seq<SearchOp>, remaining: set<nat>, m: Model, i: nat)
    requires i <= |ops|
    ensures forall p :: p in ReachBefore(ops, remaining, m, i) ==> |p.0| < |remaining|
    decreases |remaining|, i + 1
  {
    hide Tried;
    if i > 0 {
      ReachBeforeIsBelow(ops, remaining, m, i - 1);
      if Unpreceded(ops, remaining, i - 1) { TriedIsBelow(ops, remaining, m, i - 1); }
    }
  }

  lemma {:induction false} TriedIsBelow(ops: seq<SearchOp>, remaining: set<nat>, m: Model, i: nat)
    requires Unpreceded(ops, remaining, i)
    ensures forall p :: p in Tried(ops, remaining, m, i) ==> |p.0| < |remaining|
    decreases |remaining|, 0
  {
    hide AfterOp;
    Fewer(remaining, i);
    ReachIsBelow(ops, remaining - {i}, m);
    if AfterOp(ops, m, i).Some? { ReachIsBelow(ops, remaining - {i}, AfterOp(ops, m, i).value); }
  }

  /** A search comes back to a place only from above it. */
  lemma ReachUnfolds(ops: seq<SearchOp>, remaining: set<nat>, m: Model)
    requires remaining != {}
    ensures Reach(ops, remaining, m) == {(remaining, m)} + ReachBefore(ops, remaining, m, |ops|)
    ensures (remaining, m) !in ReachBefore(ops, remaining, m, |ops|)
    ensures ReachBefore(ops, remaining, m, 0) == {}
  {
    ReachBeforeIsBelow(ops, remaining, m, |ops|);
  }

  lemma {:induction false} ReachMore(ops: seq<SearchOp>, remaining: set<nat>, m: Model, i: nat)
    requires i < |ops|
    ensures ReachBefore(ops, remaining, m, i + 1)
         == ReachBefore(ops, remaining, m, i)
            + if Unpreceded(ops, remaining, i) then Tried(ops, remaining, m, i) else {}
    ensures ReachBefore(ops, remaining, m, i + 1) <= ReachBefore(ops, remaining, m, |ops|)
    decreases |ops| - i
  {
    if i + 1 < |ops| { ReachMore(ops, remaining, m, i + 1); }
  }

  function Doubt(unsure: bool): Outcome {
    if unsure then Inconclusive else NotLinearizable
  }

  /** The budgets do not cover `fee` calls and `k` more for each new place and each of `n` levels,
      with one remembered state for each new place. */
  ghost predicate Short(k: nat, limits: Limits, explored: nat, dead: set<Place>, places: set<Place>, n: nat, fee: nat) {
    || limits.maxStates < explored + fee + k * (|places - dead| + n)
    || limits.maxMemo < |dead| + |places - dead|
  }

  /** What a part of the search costs: it remembers only places it comes to; a refutation makes
      `fee` calls and `k` for each state it newly remembers; and doubt means the budgets are
      short. */
  ghost predicate Paid(k: nat, limits: Limits, r: Outcome, e0: nat, d0: set<Place>, e1: nat, d1: set<Place>,
                       places: set<Place>, n: nat, fee: nat) {
    && d0 <= d1 && d1 <= d0 + places
    && (r.NotLinearizable? ==> e1 <= e0 + fee + k * |d1 - d0|)
    && (r.Inconclusive? ==> Short(k, limits, e0, d0, places, n, fee))
  }

  lemma PaidNothing(k: nat, limits: Limits, e: nat, d: set<Place>, places: set<Place>, n: nat, fee: nat)
    ensures Paid(k, limits, NotLinearizable, e, d, e, d, places, n, fee)
    ensures Paid(k, limits, Linearizable, e, d, e, d, places, n, fee)
  {
    assert d - d == {};
  }

  /** The tests at the entry of a call. */
  lemma PaidOne(k: nat, limits: Limits, e: nat, d: set<Place>, places: set<Place>, n: nat, self: Place)
    requires self in places
    ensures e >= limits.maxStates ==> Paid(k, limits, Inconclusive, e, d, e, d, places, n, 1)
    ensures Paid(k, limits, NotLinearizable, e, d, e + 1, d, places, n, 1)
    ensures self !in d && |d| >= limits.maxMemo ==> Paid(k, limits, Inconclusive, e, d, e + 1, d, places, n, 1)
  {
    assert d - d == {};
    if self !in d { assert self in places - d; }
  }

  lemma PaidStart(k: nat, limits: Limits, e: nat, d: set<Place>, places: set<Place>, n: nat)
    ensures Paid(k, limits, NotLinearizable, e, d, e + 1, d, places, n, 1)
  {
    assert d - d == {};
  }

  lemma Product(a: nat, b: nat, share: nat)
    requires a <= b
    ensures a * share <= b * share
  {
  }

  lemma ShortMore(k: nat, limits: Limits, e: nat, d: set<Place>, places: set<Place>, places': set<Place>, n: nat,
                  n': nat,
                  fee: nat, fee': nat)
    requires Short(k, limits, e, d, places, n, fee) && places <= places' && n <= n' && fee <= fee'
    ensures Short(k, limits, e, d, places', n', fee')
  {
    Larger(places - d, places' - d);
    Product(|places - d| + n, |places' - d| + n', k);
  }

  lemma PaidMore(k: nat, limits: Limits, r: Outcome, e0: nat, d0: set<Place>, e1: nat, d1: set<Place>,
                 places: set<Place>, places': set<Place>, n: nat, fee: nat, fee': nat)
    requires Paid(k, limits, r, e0, d0, e1, d1, places, n, fee) && places <= places' && fee <= fee'
    ensures Paid(k, limits, r, e0, d0, e1, d1, places', n, fee')
  {
    hide Short;
    if r.Inconclusive? { ShortMore(k, limits, e0, d0, places, places', n, n, fee, fee'); }
  }

  lemma PaidFound(k: nat, limits: Limits, e0: nat, d0: set<Place>, e1: nat, d1: set<Place>, places: set<Place>,
                  places': set<Place>, n: nat, fee: nat, n': nat, fee': nat)
    requires Paid(k, limits, Linearizable, e0, d0, e1, d1, places, n, fee) && places <= places'
    ensures Paid(k, limits, Linearizable, e0, d0, e1, d1, places', n', fee')
  {
  }

  /** What was remembered first and what is new after it are apart. */
  lemma NewPlaces(d0: set<Place>, d1: set<Place>, a: set<Place>, b: set<Place>)
    requires d0 <= d1 && d1 <= d0 + a
    ensures |d1 - d0| + |b - d1| <= |(a + b) - d0|
    ensures |d1| == |d0| + |d1 - d0|
  {
    var first, second := d1 - d0, b - d1;
    assert |first + second| == |first| + |second|;
    Larger(first + second, (a + b) - d0);
    assert d1 == d0 + first;
  }

  /** The later part runs short of what the earlier one has left. */
  lemma ShortAfter(k: nat, limits: Limits, e0: nat, d0: set<Place>, e1: nat, d1: set<Place>,
                   a: set<Place>, b: set<Place>, n: nat, fee: nat, fee': nat)
    requires d0 <= d1 && d1 <= d0 + a && e1 <= e0 + fee + k * |d1 - d0| && Short(k, limits, e1, d1, b, n, fee')
    ensures Short(k, limits, e0, d0, a + b, n, fee + fee')
  {
    NewPlaces(d0, d1, a, b);
    var first, later, all := |d1 - d0|, |b - d1|, |(a + b) - d0|;
    Product(first + (later + n), all + n, k);
    Distribute(k, first, later + n);
  }

  lemma Distribute(k: nat, a: nat, b: nat)
    ensures k * (a + b) == k * a + k * b
  {
  }

  /** Two parts, one after the other. */
  lemma PaidBoth(k: nat, limits: Limits, r: Outcome, r': Outcome, e0: nat, d0: set<Place>, e1: nat, d1: set<Place>,
                 e2: nat, d2: set<Place>, a: set<Place>, b: set<Place>, n: nat, fee: nat, fee': nat)
    requires Paid(k, limits, r, e0, d0, e1, d1, a, n, fee) && Paid(k, limits, r', e1, d1, e2, d2, b, n, fee')
    requires !r.Linearizable?
    ensures r'.Linearizable? ==> Paid(k, limits, Linearizable, e0, d0, e2, d2, a + b, n, fee + fee')
    ensures !r'.Linearizable? ==>
      Paid(k, limits, Doubt(r.Inconclusive? || r'.Inconclusive?), e0, d0, e2, d2, a + b, n, fee + fee')
  {
    hide Short;
    if r.Inconclusive? {
      ShortMore(k, limits, e0, d0, a, a + b, n, n, fee, fee + fee');
    } else if r'.Inconclusive? {
      ShortAfter(k, limits, e0, d0, e1, d1, a, b, n, fee, fee');
    } else if r'.NotLinearizable? {
      assert d2 - d0 == (d1 - d0) + (d2 - d1);
      Distribute(k, |d1 - d0|, |d2 - d1|);
    }
  }

  /** All candidates have been tried: their two calls each are paid by the place itself. */
  lemma PaidAll(k: nat, limits: Limits, r: Outcome, e0: nat, d0: set<Place>, e1: nat, d1: set<Place>,
                places: set<Place>, self: Place, n: nat)
    requires n > 0 && self !in places && self !in d0
    requires Paid(k, limits, r, e0, d0, e1, d1, places, n - 1, 1 + k)
    ensures r.Inconclusive? ==> Paid(k, limits, r, e0, d0, e1, d1, {self} + places, n, 1)
    ensures r.NotLinearizable? ==> Paid(k, limits, r, e0, d0, e1, d1 + {self}, {self} + places, n, 1)
  {
    var all := {self} + places;
    Larger(places - d0, all - d0);
    Product(|places - d0| + n, |all - d0| + n, k);
    Distribute(k, |places - d0| + (n - 1), 1);
    assert (d1 + {self}) - d0 == (d1 - d0) + {self};
    Distribute(k, |d1 - d0|, 1);
  }

  lemma Larger<T>(a: set<T>, b: set<T>)
    requires a <= b
    ensures |a| <= |b|
  {
    assert b == a + (b - a);
  }
}
