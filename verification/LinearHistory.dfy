/** Histories of concurrent operations: when they are well formed, what it means that one is
    linearizable, and the checker and its minimiser. */
module LinearHistory {
  import opened RaftTypes
  import opened LinearModel
  import opened LinearSearch

  datatype Kind = Succeeded | Rejected | TimedOut | Indeterminate

  datatype Invocation = Invocation(id: nat, client: nat, at: nat, operation: Operation)

  datatype Completion = Completion(id: nat, at: nat, kind: Kind, result: Option<Result>)

  datatype History = History(invocations: seq<Invocation>, completions: seq<Completion>)

  // ---- Well-formed histories -----------------------------------------------

  predicate InvocationOk(i: Invocation) {
    i.id != 0 && i.client != 0 && i.operation.key != []
  }

  predicate ResultOk(operation: Operation, r: Result) {
    && Matches(operation, r) && 0 <= r.revision
    && (r.GetResult? && r.found.Some? ==> 0 < r.found.value.modified <= r.revision)
  }

  predicate CompletionOk(i: Invocation, c: Completion) {
    && i.at <= c.at
    && (if c.kind.Succeeded? then c.result.Some? && ResultOk(i.operation, c.result.value) else c.result.None?)
  }

  predicate DistinctInvocations(s: seq<Invocation>) {
    forall i, j :: 0 <= i < j < |s| ==> s[i].id != s[j].id
  }

  predicate DistinctCompletions(s: seq<Completion>) {
    forall i, j :: 0 <= i < j < |s| ==> s[i].id != s[j].id
  }

  predicate HasInvocation(h: History, c: Completion) {
    exists i :: 0 <= i < |h.invocations| && h.invocations[i].id == c.id && CompletionOk(h.invocations[i], c)
  }

  predicate ValidHistory(h: History) {
    && (forall i :: 0 <= i < |h.invocations| ==> InvocationOk(h.invocations[i]))
    && DistinctInvocations(h.invocations)
    && (forall i :: 0 <= i < |h.completions| ==> HasInvocation(h, h.completions[i]))
    && DistinctCompletions(h.completions)
  }

  /** Where each operation id was invoked. */
  predicate Known(s: seq<Invocation>, n: nat, known: map<nat, nat>)
    requires n <= |s|
  {
    && (forall j :: 0 <= j < n ==> s[j].id in known && known[s[j].id] == j)
    && (forall id :: id in known ==> known[id] < n && s[known[id]].id == id)
  }

  predicate InvocationsOk(s: seq<Invocation>) {
    (forall i :: 0 <= i < |s| ==> InvocationOk(s[i])) && DistinctInvocations(s)
  }

  method ValidateInvocations(s: seq<Invocation>) returns (ok: bool, known: map<nat, nat>)
    ensures ok <==> InvocationsOk(s)
    ensures ok ==> Known(s, |s|, known)
  {
    known := map[];
    for i := 0 to |s|
      invariant forall j :: 0 <= j < i ==> InvocationOk(s[j])
      invariant Known(s, i, known)
    {
      if s[i].id == 0 || s[i].client == 0 || s[i].operation.key == [] {
        assert !InvocationOk(s[i]);
        return false, known;
      }
      if s[i].id in known {
        assert s[known[s[i].id]].id == s[i].id;
        return false, known;
      }
      known := known[s[i].id := i];
    }
    return true, known;
  }

  lemma HasKnownInvocation(h: History, known: map<nat, nat>, c: Completion)
    requires Known(h.invocations, |h.invocations|, known)
    ensures HasInvocation(h, c) <==> c.id in known && CompletionOk(h.invocations[known[c.id]], c)
  {
  }

  method Validate(h: History) returns (ok: bool)
    ensures ok <==> ValidHistory(h)
  {
    var known;
    ok, known := ValidateInvocations(h.invocations);
    if !ok { return false; }
    hide HasInvocation, Known;
    var seen: map<nat, nat> := map[];
    for i := 0 to |h.completions|
      invariant forall j :: 0 <= j < i ==> HasInvocation(h, h.completions[j])
      invariant forall j :: 0 <= j < i ==> h.completions[j].id in seen && seen[h.completions[j].id] == j
      invariant forall id :: id in seen ==> seen[id] < i && h.completions[seen[id]].id == id
    {
      var c := h.completions[i];
      HasKnownInvocation(h, known, c);
      if c.id !in known { return false; }
      if c.id in seen {
        assert h.completions[seen[c.id]].id == c.id;
        return false;
      }
      if !KnownOk(h, known, c) { return false; }
      seen := seen[c.id := i];
    }
    return true;
  }

  predicate KnownOk(h: History, known: map<nat, nat>, c: Completion)
    requires c.id in known && known[c.id] < |h.invocations|
  {
    CompletionOk(h.invocations[known[c.id]], c)
  }

  // ---- Linearizability -----------------------------------------------------

  function FindCompletion(s: seq<Completion>, id: nat): (c: Option<Completion>)
    ensures c.Some? ==> c.value in s && c.value.id == id
    ensures c.None? ==> forall i :: 0 <= i < |s| ==> s[i].id != id
  {
    if s == [] then None
    else if s[0].id == id then Some(s[0])
    else FindCompletion(s[1..], id)
  }

  function CompletionOf(h: History, v: Invocation): Option<Completion> {
    FindCompletion(h.completions, v.id)
  }

  predicate MustAppear(h: History, v: Invocation) {
    var c := CompletionOf(h, v);
    c.Some? && c.value.kind.Succeeded?
  }

  /** A rejected or timed-out operation took no effect; a pending one may have. */
  predicate MayAppear(h: History, v: Invocation) {
    var c := CompletionOf(h, v);
    c.None? || c.value.kind.Succeeded? || c.value.kind.Indeterminate?
  }

  /** `a` completed before `b` was invoked. */
  predicate Precedes(h: History, a: Invocation, b: Invocation) {
    var c := CompletionOf(h, a);
    c.Some? && c.value.at < b.at
  }

  function ExpectedOf(h: History, v: Invocation): Option<Result> {
    if MustAppear(h, v) then CompletionOf(h, v).value.result else None
  }

  predicate Runs(h: History, m: Model, order: seq<Invocation>)
    decreases |order|
  {
    order == [] ||
    var next := Apply(m, order[0].operation, ExpectedOf(h, order[0]));
    next.Some? && Runs(h, next.value, order[1..])
  }

  predicate RespectsTime(h: History, order: seq<Invocation>) {
    forall i, j :: 0 <= i < j < |order| ==> !Precedes(h, order[j], order[i])
  }

  /** A sequential execution of the object that explains what the clients saw. */
  predicate Explains(h: History, order: seq<Invocation>) {
    && NoDuplicates(order)
    && (forall i :: 0 <= i < |order| ==> order[i] in h.invocations && MayAppear(h, order[i]))
    && (forall v :: v in h.invocations && MustAppear(h, v) ==> v in order)
    && RespectsTime(h, order)
    && Runs(h, EMPTY, order)
  }

  ghost predicate LinearizableHistory(h: History) {
    exists order :: Explains(h, order)
  }

  // ---- The operations of the search ----------------------------------------

  /** A pending read constrains nothing and is left out of the search. */
  predicate Relevant(h: History, v: Invocation) {
    MayAppear(h, v) && (MustAppear(h, v) || !v.operation.Get?)
  }

  ghost predicate Listing(h: History, list: seq<Invocation>) {
    && NoDuplicates(list)
    && (forall v :: v in list <==> v in h.invocations && Relevant(h, v))
  }

  function Predecessors(h: History, list: seq<Invocation>, i: nat): set<nat>
    requires i < |list|
  {
    set j | 0 <= j < |list| && j != i && Precedes(h, list[j], list[i])
  }

  function OpAt(h: History, list: seq<Invocation>, i: nat): SearchOp
    requires i < |list|
  {
    SearchOp(list[i].operation, ExpectedOf(h, list[i]), MustAppear(h, list[i]), Predecessors(h, list, i))
  }

  function OpsOf(h: History, list: seq<Invocation>): (ops: seq<SearchOp>)
    ensures |ops| == |list| && forall i :: 0 <= i < |list| ==> ops[i] == OpAt(h, list, i)
  {
    seq(|list|, i requires 0 <= i < |list| => OpAt(h, list, i))
  }

  function All(n: nat): (all: set<nat>)
    ensures forall i: nat :: i in all <==> i < n
  {
    if n == 0 then {} else All(n - 1) + {n - 1}
  }

  /** A completion does not come before its invocation. */
  lemma CompletedAfterInvoked(h: History, v: Invocation)
    requires ValidHistory(h) && v in h.invocations && CompletionOf(h, v).Some?
    ensures v.at <= CompletionOf(h, v).value.at
  {
    var c := CompletionOf(h, v).value;
    var k :| 0 <= k < |h.completions| && h.completions[k] == c;
    assert HasInvocation(h, h.completions[k]);
    var i :| 0 <= i < |h.invocations| && h.invocations[i].id == c.id && CompletionOk(h.invocations[i], c);
    var j :| 0 <= j < |h.invocations| && h.invocations[j] == v;
    assert i == j;
  }

  lemma PrecedenceIsStrict(h: History, list: seq<Invocation>)
    requires ValidHistory(h) && Listing(h, list)
    ensures StrictOrder(OpsOf(h, list))
  {
    var ops := OpsOf(h, list);
    forall i, j | 0 <= i < |ops| && j in ops[i].predecessors && j < |ops|
      ensures ops[j].predecessors <= ops[i].predecessors
    {
      forall k | k in ops[j].predecessors ensures k in ops[i].predecessors {
        CompletedAfterInvoked(h, list[j]);
        CompletedAfterInvoked(h, list[k]);
      }
    }
  }

  // ---- From the search to the history --------------------------------------

  function Named(list: seq<Invocation>, order: seq<nat>): (out: seq<Invocation>)
    requires forall i :: 0 <= i < |order| ==> order[i] < |list|
    ensures |out| == |order| && forall i :: 0 <= i < |order| ==> out[i] == list[order[i]]
  {
    seq(|order|, i requires 0 <= i < |order| => list[order[i]])
  }

  lemma {:induction false} NamedRuns(h: History, list: seq<Invocation>, m: Model, order: seq<nat>)
    requires forall i :: 0 <= i < |order| ==> order[i] < |list|
    ensures Legal(OpsOf(h, list), m, order) == Runs(h, m, Named(list, order))
    decreases |order|
  {
    if order != [] {
      var named := Named(list, order);
      assert named[1..] == Named(list, order[1..]);
      var next := Apply(m, named[0].operation, ExpectedOf(h, named[0]));
      if next.Some? {
        NamedRuns(h, list, next.value, order[1..]);
      }
    }
  }

  lemma NamedExplains(h: History, list: seq<Invocation>, order: seq<nat>)
    requires Listing(h, list) && Order(OpsOf(h, list), All(|list|), order) && Legal(OpsOf(h, list), EMPTY, order)
    ensures Explains(h, Named(list, order))
  {
    var ops, named := OpsOf(h, list), Named(list, order);
    NamedRuns(h, list, EMPTY, order);
    hide Legal, Runs, CompletionOf, MayAppear, MustAppear;
    assert forall i, j :: 0 <= i < j < |named| ==> named[i] != named[j] by {
      assert forall i, j :: 0 <= i < j < |order| ==> order[i] != order[j];
    }
    forall v | v in h.invocations && MustAppear(h, v) ensures v in named {
      SucceededIsRelevant(h, v);
      var k :| 0 <= k < |list| && list[k] == v;
      assert ops[k].required && k in order;
    }
    forall i, j | 0 <= i < j < |named| ensures !Precedes(h, named[j], named[i]) {
      assert order[j] !in ops[order[i]].predecessors;
    }
    forall i | 0 <= i < |named| ensures named[i] in h.invocations && MayAppear(h, named[i]) {
      assert named[i] in list;
    }
  }

  lemma SucceededIsRelevant(h: History, v: Invocation)
    requires MustAppear(h, v)
    ensures Relevant(h, v)
  {
  }

  // ---- From the history to the search --------------------------------------

  function OnlyRelevant(h: History, order: seq<Invocation>): seq<Invocation> {
    if order == [] then []
    else (if Relevant(h, order[0]) then [order[0]] else []) + OnlyRelevant(h, order[1..])
  }

  lemma {:induction false} RelevantElements(h: History, order: seq<Invocation>)
    ensures forall v :: v in OnlyRelevant(h, order) <==> v in order && Relevant(h, v)
  {
    if order != [] {
      RelevantElements(h, order[1..]);
    }
  }

  lemma {:induction false} RelevantDistinct(h: History, order: seq<Invocation>)
    requires NoDuplicates(order) && RespectsTime(h, order)
    ensures NoDuplicates(OnlyRelevant(h, order)) && RespectsTime(h, OnlyRelevant(h, order))
  {
    hide Relevant, Precedes;
    if order != [] {
      var rest := order[1..];
      assert forall i :: 0 <= i < |rest| ==> rest[i] == order[i + 1];
      RelevantDistinct(h, rest);
      RelevantElements(h, rest);
      var kept := OnlyRelevant(h, rest);
      forall i | 0 <= i < |kept| ensures kept[i] != order[0] && !Precedes(h, kept[i], order[0]) {
        assert kept[i] in rest;
        var k :| 0 <= k < |rest| && rest[k] == kept[i];
      }
    }
  }

  /** Pending reads can be dropped from an execution. */
  lemma {:induction false} RelevantRuns(h: History, m: Model, order: seq<Invocation>)
    requires Runs(h, m, order) && forall i :: 0 <= i < |order| ==> MayAppear(h, order[i])
    ensures Runs(h, m, OnlyRelevant(h, order))
    decreases |order|
  {
    if order != [] {
      var v, rest := order[0], order[1..];
      var next := Apply(m, v.operation, ExpectedOf(h, v)).value;
      assert forall i :: 0 <= i < |rest| ==> rest[i] == order[i + 1];
      RelevantRuns(h, next, rest);
      var kept := OnlyRelevant(h, rest);
      if Relevant(h, v) {
        assert ([v] + kept)[1..] == kept;
      } else {
        GetChangesNothing(m, v.operation);
        assert [] + kept == kept;
      }
    }
  }

  function Position(list: seq<Invocation>, v: Invocation): (i: nat)
    requires v in list
    ensures i < |list| && list[i] == v
  {
    if list[0] == v then 0 else 1 + Position(list[1..], v)
  }

  function Positions(list: seq<Invocation>, order: seq<Invocation>): (out: seq<nat>)
    requires forall i :: 0 <= i < |order| ==> order[i] in list
    ensures |out| == |order| && forall i :: 0 <= i < |order| ==> out[i] == Position(list, order[i])
  {
    seq(|order|, i requires 0 <= i < |order| => Position(list, order[i]))
  }

  lemma PositionsExplain(h: History, list: seq<Invocation>, order: seq<Invocation>)
    requires Listing(h, list) && Explains(h, order)
    requires forall v :: v in order ==> Relevant(h, v)
    ensures Explainable(OpsOf(h, list), All(|list|), EMPTY)
  {
    hide Legal, Runs, CompletionOf, MayAppear, Relevant, Precedes, MustAppear, Position, OpsOf, All;
    forall i | 0 <= i < |order| ensures order[i] in list {
      assert order[i] in order;
    }
    var at := Positions(list, order);
    assert Named(list, at) == order;
    NamedRuns(h, list, EMPTY, at);
    PositionsInOrder(h, list, order, at);
    PositionsRequired(h, list, order, at);
    assert Order(OpsOf(h, list), All(|list|), at);
  }

  predicate Located(list: seq<Invocation>, order: seq<Invocation>, at: seq<nat>) {
    |at| == |order| && forall i :: 0 <= i < |at| ==> at[i] < |list| && list[at[i]] == order[i]
  }

  lemma PositionsInOrder(h: History, list: seq<Invocation>, order: seq<Invocation>, at: seq<nat>)
    requires NoDuplicates(order) && RespectsTime(h, order) && Located(list, order, at)
    ensures NoDuplicates(at)
    ensures forall i, j :: 0 <= i < j < |at| ==> at[j] !in OpsOf(h, list)[at[i]].predecessors
  {
    hide Precedes, MustAppear, ExpectedOf;
    forall i, j | 0 <= i < j < |at| ensures at[i] != at[j] && at[j] !in OpsOf(h, list)[at[i]].predecessors {
      assert list[at[i]] == order[i] && list[at[j]] == order[j];
    }
  }

  lemma PositionsRequired(h: History, list: seq<Invocation>, order: seq<Invocation>, at: seq<nat>)
    requires Listing(h, list) && Located(list, order, at)
    requires forall v :: v in h.invocations && MustAppear(h, v) ==> v in order
    ensures forall i :: i in All(|list|) && i < |list| && OpsOf(h, list)[i].required ==> i in at
  {
    hide Precedes, MustAppear, ExpectedOf, Relevant;
    forall i | i in All(|list|) && i < |list| && OpsOf(h, list)[i].required ensures i in at {
      assert list[i] in list && list[i] in order;
      var k :| 0 <= k < |order| && order[k] == list[i];
      assert at[k] == i;
    }
  }

  /** The search decides exactly linearizability of the history. */
  lemma SearchDecidesHistory(h: History, list: seq<Invocation>)
    requires Listing(h, list)
    ensures Explainable(OpsOf(h, list), All(|list|), EMPTY) <==> LinearizableHistory(h)
  {
    if Explainable(OpsOf(h, list), All(|list|), EMPTY) {
      var order :| Order(OpsOf(h, list), All(|list|), order) && Legal(OpsOf(h, list), EMPTY, order);
      NamedExplains(h, list, order);
    }
    if LinearizableHistory(h) {
      var order :| Explains(h, order);
      var kept := OnlyRelevant(h, order);
      RelevantElements(h, order);
      RelevantDistinct(h, order);
      RelevantRuns(h, EMPTY, order);
      KeptExplains(h, order, kept);
      PositionsExplain(h, list, kept);
    }
  }

  lemma KeptExplains(h: History, order: seq<Invocation>, kept: seq<Invocation>)
    requires Explains(h, order) && NoDuplicates(kept) && RespectsTime(h, kept) && Runs(h, EMPTY, kept)
    requires forall v :: v in kept <==> v in order && Relevant(h, v)
    ensures Explains(h, kept)
  {
    hide Runs, RespectsTime, CompletionOf;
    forall i | 0 <= i < |kept| ensures kept[i] in h.invocations && MayAppear(h, kept[i]) {
      assert kept[i] in kept;
    }
    forall v | v in h.invocations && MustAppear(h, v) ensures v in kept {
      SucceededIsRelevant(h, v);
    }
  }

  // ---- The checker ---------------------------------------------------------

  method ListRelevant(h: History) returns (list: seq<Invocation>)
    requires ValidHistory(h)
    ensures Listing(h, list)
  {
    list := [];
    for i := 0 to |h.invocations|
      invariant NoDuplicates(list)
      invariant forall v :: v in list <==> v in h.invocations[..i] && Relevant(h, v)
    {
      var v := h.invocations[i];
      assert h.invocations[..i + 1] == h.invocations[..i] + [v];
      assert v !in h.invocations[..i];
      if Relevant(h, v) { list := list + [v]; }
    }
    assert h.invocations[..|h.invocations|] == h.invocations;
  }

  predicate SortedById(s: seq<Invocation>) {
    forall i, j :: 0 <= i < j < |s| ==> s[i].id <= s[j].id
  }

  /** Puts one invocation at its place in a sorted list. */
  method InsertById(list: seq<Invocation>, v: Invocation) returns (out: seq<Invocation>)
    requires SortedById(list) && NoDuplicates(list) && v !in list
    ensures SortedById(out) && NoDuplicates(out) && forall x :: x in out <==> x in list || x == v
  {
    var k := |list|;
    while k > 0 && list[k - 1].id > v.id
      invariant 0 <= k <= |list|
      invariant forall j :: k <= j < |list| ==> list[j].id > v.id
    {
      k := k - 1;
    }
    out := list[..k] + [v] + list[k..];
    InsertedAt(list, v, k, out);
  }

  lemma InsertedAt(list: seq<Invocation>, v: Invocation, k: nat, out: seq<Invocation>)
    requires k <= |list| && out == list[..k] + [v] + list[k..]
    requires NoDuplicates(list) && v !in list
    ensures NoDuplicates(out) && forall x :: x in out <==> x in list || x == v
  {
    assert list == list[..k] + list[k..];
    forall i, j | 0 <= i < j < |out| ensures out[i] != out[j] {
      assert out[i] == (if i < k then list[i] else if i == k then v else list[i - 1]);
      assert out[j] == (if j < k then list[j] else if j == k then v else list[j - 1]);
    }
  }

  /** The order of the list does not matter to the result of the search. */
  method SortById(list: seq<Invocation>) returns (out: seq<Invocation>)
    requires NoDuplicates(list)
    ensures SortedById(out) && NoDuplicates(out) && forall v :: v in out <==> v in list
  {
    out := [];
    for i := 0 to |list|
      invariant SortedById(out) && NoDuplicates(out)
      invariant forall v :: v in out <==> v in list[..i]
    {
      assert list[..i + 1] == list[..i] + [list[i]];
      assert list[i] !in list[..i];
      out := InsertById(out, list[i]);
    }
    assert list[..|list|] == list;
  }

  method MarkPredecessors(h: History, list: seq<Invocation>) returns (ops: seq<SearchOp>)
    ensures ops == OpsOf(h, list)
  {
    ops := [];
    for later := 0 to |list|
      invariant |ops| == later && forall i :: 0 <= i < later ==> ops[i] == OpAt(h, list, i)
    {
      var predecessors: set<nat> := {};
      for earlier := 0 to |list|
        invariant predecessors
               == set j | 0 <= j < earlier && j != later && Precedes(h, list[j], list[later])
      {
        if earlier != later && Precedes(h, list[earlier], list[later]) {
          predecessors := predecessors + {earlier};
        }
      }
      var v := list[later];
      ops := ops + [SearchOp(v.operation, ExpectedOf(h, v), MustAppear(h, v), predecessors)];
    }
    assert ops == OpsOf(h, list);
  }

  ghost function RelevantCount(h: History): nat {
    |set v | v in h.invocations && Relevant(h, v)|
  }

  lemma ListingCounts(h: History, list: seq<Invocation>)
    requires Listing(h, list)
    ensures |list| == RelevantCount(h)
  {
    DistinctCount(list);
    assert (set v | v in list) == set v | v in h.invocations && Relevant(h, v);
  }

  lemma {:induction false} DistinctCount(list: seq<Invocation>)
    requires NoDuplicates(list)
    ensures |set v | v in list| == |list|
  {
    if list != [] {
      var rest := list[1..];
      DistinctCount(rest);
      assert list == [list[0]] + rest && list[0] !in rest;
      assert (set v | v in list) == (set v | v in rest) + {list[0]};
    }
  }

  /** The budgets do not cover two calls at each operation for each different place the search
      may come to. */
  ghost predicate MemoTooSmall(h: History, list: seq<Invocation>, limits: Limits) {
    Short(2 * |list|, limits, 0, {}, Reach(OpsOf(h, list), All(|list|), EMPTY), |list|, 1)
  }

  /** The history has more operations than the checker takes, or a full search of them, counted
      both ways, may not fit in the budgets. */
  ghost predicate OverBudget(h: History, limits: Limits) {
    || limits.maxOperations == 0 || limits.maxStates == 0 || limits.maxMemo == 0
    || |h.invocations| > limits.maxOperations
    || RelevantCount(h) > 64
    || (&& TooSmall(limits, 0, 0, Cost(RelevantCount(h)))
        && exists list :: Listing(h, list) && SortedById(list) && MemoTooSmall(h, list, limits))
  }

  /** The outcome of one check; `valid` is false where the code throws. */
  datatype Verdict = Verdict(valid: bool, outcome: Outcome, explored: nat)

  /** A verdict that is right about the history, and withheld only for want of budget. */
  ghost predicate Right(h: History, limits: Limits, v: Verdict) {
    && (v.valid <==> ValidHistory(h))
    && (v.valid && v.outcome.Linearizable? ==> LinearizableHistory(h))
    && (v.valid && v.outcome.NotLinearizable? ==> !LinearizableHistory(h))
    && (v.valid && v.outcome.Inconclusive? ==> OverBudget(h, limits))
    && v.explored <= limits.maxStates && v.explored <= Cost(RelevantCount(h))
  }

  method CheckInternal(h: History, limits: Limits) returns (verdict: Verdict)
    ensures Right(h, limits, verdict)
  {
    hide ValidHistory, LinearizableHistory, RelevantCount, Cost, Listing, NoDuplicates, MemoTooSmall;
    var ok := Validate(h);
    if !ok { return Verdict(false, Inconclusive, 0); }
    if limits.maxOperations == 0 || limits.maxStates == 0 || limits.maxMemo == 0
       || |h.invocations| > limits.maxOperations {
      return Verdict(true, Inconclusive, 0);
    }
    var list := ListRelevant(h);
    list := Reorder(h, list);
    ListingCounts(h, list);
    if |list| > 64 { return Verdict(true, Inconclusive, 0); }
    var outcome, explored := SearchList(h, list, limits);
    return Verdict(true, outcome, explored);
  }

  method Reorder(h: History, list: seq<Invocation>) returns (out: seq<Invocation>)
    requires Listing(h, list)
    ensures Listing(h, out) && SortedById(out)
  {
    out := SortById(list);
  }

  method SearchList(h: History, list: seq<Invocation>, limits: Limits) returns (outcome: Outcome, explored: nat)
    requires ValidHistory(h) && Listing(h, list)
    ensures outcome.Linearizable? ==> LinearizableHistory(h)
    ensures outcome.NotLinearizable? ==> !LinearizableHistory(h)
    ensures outcome.Inconclusive? ==> TooSmall(limits, 0, 0, Cost(|list|)) && MemoTooSmall(h, list, limits)
    ensures explored <= limits.maxStates && explored <= Cost(|list|)
  {
    hide ValidHistory, LinearizableHistory, Listing, Cost, Explainable, Reach, Short;
    var ops := MarkPredecessors(h, list);
    PrecedenceIsStrict(h, list);
    var context := new Context(ops, limits);
    AllCount(|ops|);
    outcome := context.Search(All(|ops|), EMPTY);
    SearchDecidesHistory(h, list);
    explored := context.explored;
  }

  lemma {:induction false} AllCount(n: nat)
    ensures |All(n)| == n
  {
    if n > 0 {
      AllCount(n - 1);
      assert n - 1 !in All(n - 1);
    }
  }

  // ---- Minimisation --------------------------------------------------------

  function InvocationsWithout(s: seq<Invocation>, id: nat): seq<Invocation> {
    if s == [] then []
    else (if s[0].id != id then [s[0]] else []) + InvocationsWithout(s[1..], id)
  }

  function CompletionsWithout(s: seq<Completion>, id: nat): seq<Completion> {
    if s == [] then []
    else (if s[0].id != id then [s[0]] else []) + CompletionsWithout(s[1..], id)
  }

  function Without(h: History, id: nat): History {
    History(InvocationsWithout(h.invocations, id), CompletionsWithout(h.completions, id))
  }

  lemma {:induction false} InvocationsLeft(s: seq<Invocation>, id: nat)
    ensures forall v :: v in InvocationsWithout(s, id) <==> v in s && v.id != id
    ensures |InvocationsWithout(s, id)| <= |s|
    ensures (exists v :: v in s && v.id == id) ==> |InvocationsWithout(s, id)| < |s|
    ensures DistinctInvocations(s) ==> DistinctInvocations(InvocationsWithout(s, id))
  {
    if s != [] {
      var rest := s[1..];
      InvocationsLeft(rest, id);
      assert DistinctInvocations(s) ==> DistinctInvocations(rest);
      var left := InvocationsWithout(rest, id);
      assert forall i :: 0 <= i < |left| ==> left[i] in rest;
    }
  }

  lemma {:induction false} CompletionsLeft(s: seq<Completion>, id: nat)
    ensures forall c :: c in CompletionsWithout(s, id) <==> c in s && c.id != id
    ensures DistinctCompletions(s) ==> DistinctCompletions(CompletionsWithout(s, id))
  {
    if s != [] {
      var rest := s[1..];
      CompletionsLeft(rest, id);
      assert DistinctCompletions(s) ==> DistinctCompletions(rest);
      var left := CompletionsWithout(rest, id);
      assert forall i :: 0 <= i < |left| ==> left[i] in rest;
    }
  }

  lemma InvocationStays(h: History, r: History, c: Completion, id: nat)
    requires HasInvocation(h, c) && c.id != id
    requires forall v :: v in h.invocations && v.id != id ==> v in r.invocations
    ensures HasInvocation(r, c)
  {
    hide CompletionOk;
    var i :| 0 <= i < |h.invocations| && h.invocations[i].id == c.id && CompletionOk(h.invocations[i], c);
    assert h.invocations[i] in r.invocations;
  }

  /** Removing one operation leaves a well-formed history. */
  lemma WithoutStaysValid(h: History, id: nat)
    requires ValidHistory(h)
    ensures ValidHistory(Without(h, id))
  {
    hide InvocationOk, HasInvocation, DistinctInvocations, DistinctCompletions, InvocationsWithout, CompletionsWithout;
    InvocationsLeft(h.invocations, id);
    CompletionsLeft(h.completions, id);
    var r := Without(h, id);
    forall i | 0 <= i < |r.invocations| ensures InvocationOk(r.invocations[i]) {
      assert r.invocations[i] in h.invocations;
    }
    forall k | 0 <= k < |r.completions| ensures HasInvocation(r, r.completions[k]) {
      var c := r.completions[k];
      assert c in r.completions && c in h.completions;
      InvocationStays(h, r, c, id);
    }
  }

  predicate Within(r: History, h: History) {
    && (forall v :: v in r.invocations ==> v in h.invocations)
    && (forall c :: c in r.completions ==> c in h.completions)
  }

  lemma WithoutIsWithin(h: History, id: nat)
    ensures Within(Without(h, id), h)
  {
    InvocationsLeft(h.invocations, id);
    CompletionsLeft(h.completions, id);
  }

  function IdsOf(s: seq<Invocation>): (ids: seq<nat>)
    ensures |ids| == |s| && forall i :: 0 <= i < |s| ==> ids[i] == s[i].id
  {
    seq(|s|, i requires 0 <= i < |s| => s[i].id)
  }

  /** Removing `id` leaves nothing, a linearizable history, or one beyond the budgets. */
  ghost predicate Needed(h: History, id: nat, limits: Limits) {
    var left := Without(h, id);
    left.invocations == [] || LinearizableHistory(left) || OverBudget(left, limits)
  }

  /** One pass: the first removal that keeps the history wrong. */
  method RemoveOne(h: History, limits: Limits) returns (smaller: Option<History>)
    requires ValidHistory(h)
    ensures smaller.Some? ==>
      && ValidHistory(smaller.value) && !LinearizableHistory(smaller.value) && Within(smaller.value, h)
      && smaller.value.invocations != [] && |smaller.value.invocations| < |h.invocations|
    ensures smaller.None? ==> forall v :: v in h.invocations ==> Needed(h, v.id, limits)
  {
    hide OverBudget;
    var sorted := SortById(h.invocations);
    var ids := IdsOf(sorted);
    for i := 0 to |ids|
      invariant forall j :: 0 <= j < i ==> Needed(h, ids[j], limits)
    {
      var candidate := Without(h, ids[i]);
      WithoutStaysValid(h, ids[i]);
      if candidate.invocations != [] {
        var verdict := CheckInternal(candidate, limits);
        if verdict.outcome.NotLinearizable? {
          WithoutIsWithin(h, ids[i]);
          InvocationsLeft(h.invocations, ids[i]);
          assert sorted[i] in sorted && sorted[i] in h.invocations;
          return Some(candidate);
        }
      }
    }
    forall v | v in h.invocations ensures Needed(h, v.id, limits) {
      var i :| 0 <= i < |sorted| && sorted[i] == v;
      assert ids[i] == v.id;
    }
    return None;
  }

  /** The checker. A counterexample is part of the history, is itself not linearizable, and
      every single removal from it leaves a linearizable history, as far as the budgets reach. */
  method Check(h: History, limits: Limits) returns (verdict: Verdict, counterexample: Option<History>)
    ensures Right(h, limits, verdict)
    ensures counterexample.Some? <==> verdict.valid && verdict.outcome.NotLinearizable?
    ensures counterexample.Some? ==>
      && ValidHistory(counterexample.value) && !LinearizableHistory(counterexample.value)
      && Within(counterexample.value, h)
      && forall v :: v in counterexample.value.invocations ==> Needed(counterexample.value, v.id, limits)
  {
    verdict := CheckInternal(h, limits);
    if !verdict.valid || !verdict.outcome.NotLinearizable? { return verdict, None; }
    var reduced := h;
    while true
      invariant ValidHistory(reduced) && !LinearizableHistory(reduced) && Within(reduced, h)
      decreases |reduced.invocations|
    {
      var smaller := RemoveOne(reduced, limits);
      if smaller.None? { return verdict, Some(reduced); }
      reduced := smaller.value;
    }
  }
}
