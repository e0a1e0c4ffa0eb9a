/** What the checked object is, said of the optional value and the revision of each key; and what the
    definition of a linearizable history comes to where nothing overlaps. */
module LinearObject {
  import opened RaftTypes
  import opened LinearModel
  import opened LinearHistory

  // ---- The object ----------------------------------------------------------

  function Current(m: Model, key: Text): Option<Text> {
    if key in m.values then Some(m.values[key].value) else None
  }

  /** The operation sees the value it asks for; every other operation asks for nothing. */
  predicate Agrees(m: Model, operation: Operation) {
    operation.CompareAndSwap? ==> Current(m, operation.key) == operation.expected
  }

  /** The value that the operation leaves at its key. */
  function Wanted(m: Model, operation: Operation): Option<Text> {
    match operation
    case Get(key) => Current(m, key)
    case Put(_, value) => Some(value)
    case Erase(_) => None
    case CompareAndSwap(key, _, desired) => if Agrees(m, operation) then desired else Current(m, key)
  }

  /** It takes effect if it stores a value, even an equal one, or removes one that is there. */
  predicate TakesEffect(m: Model, operation: Operation) {
    && !operation.Get? && Agrees(m, operation)
    && (Wanted(m, operation).Some? || Current(m, operation.key).Some?)
  }

  /** The object's answer tells the revision afterwards and what the operation found. */
  predicate Tells(m: Model, operation: Operation, m': Model, result: Result) {
    && Matches(operation, result) && result.revision == m'.revision
    && (result.GetResult? ==>
          if operation.key in m.values then result.found == Some(m.values[operation.key]) else result.found.None?)
    && (result.EraseResult? ==> (result.erased <==> operation.key in m.values))
    && (result.CasResult? ==> (result.exchanged <==> Agrees(m, operation)))
  }

  /** One operation: its key holds what was wanted, every other key what it held, and the revision
      rises by one, and is the one stored, exactly when the operation takes effect. */
  ghost predicate Meant(m: Model, operation: Operation, m': Model, result: Result) {
    && (TakesEffect(m, operation) ==> m.revision != REVISION_MAX)
    && m'.revision == m.revision + (if TakesEffect(m, operation) then 1 else 0)
    && Current(m', operation.key) == Wanted(m, operation)
    && (forall k :: k != operation.key ==> (k in m'.values <==> k in m.values))
    && (forall k :: k != operation.key && k in m.values ==> m'.values[k] == m.values[k])
    && (operation.key in m'.values ==>
          m'.values[operation.key].modified
          == if TakesEffect(m, operation) then m'.revision else m.values[operation.key].modified)
    && Tells(m, operation, m', result)
  }

  /** The checker's object does what is meant, and fails only where the revisions are exhausted. */
  lemma PerformMeans(m: Model, operation: Operation)
    ensures var done := Perform(m, operation);
      && (done.None? <==> TakesEffect(m, operation) && m.revision == REVISION_MAX)
      && (done.Some? ==> Meant(m, operation, done.value.0, done.value.1))
  {
  }

  /** What is meant leaves no choice. */
  lemma MeantIsUnique(m: Model, operation: Operation, a: Model, ra: Result, b: Model, rb: Result)
    requires Meant(m, operation, a, ra) && Meant(m, operation, b, rb)
    ensures a == b && ra == rb
  {
    hide Agrees;
    var key := operation.key;
    assert a.values.Keys == b.values.Keys by {
      forall k ensures k in a.values <==> k in b.values {
        if k == key { assert Current(a, key) == Current(b, key); }
      }
    }
    forall k | k in a.values ensures a.values[k] == b.values[k] {
      if k == key { assert Current(a, key) == Current(b, key); }
    }
    assert a.values == b.values;
  }

  lemma AppliesIff(m: Model, operation: Operation, expected: Result, m': Model)
    ensures Apply(m, operation, Some(expected)) == Some(m') <==> Meant(m, operation, m', expected)
  {
    PerformMeans(m, operation);
    hide Meant, Perform, TakesEffect;
    if Meant(m, operation, m', expected) {
      MeantHasRoom(m, operation, m', expected);
      var done := Perform(m, operation).value;
      MeantIsUnique(m, operation, m', expected, done.0, done.1);
    }
  }

  lemma MeantHasRoom(m: Model, operation: Operation, m': Model, result: Result)
    requires Meant(m, operation, m', result)
    ensures TakesEffect(m, operation) ==> m.revision != REVISION_MAX
  {
  }

  // ---- Histories without overlap -------------------------------------------

  /** The result that the client of `v` was told. */
  predicate Told(h: History, v: Invocation, result: Result) {
    exists c :: c in h.completions && c.id == v.id && c.kind.Succeeded? && c.result == Some(result)
  }

  /** Every operation succeeded, and completed before the next was invoked. */
  predicate Sequential(h: History) {
    && (forall v :: v in h.invocations ==> exists c :: c in h.completions && c.id == v.id && c.kind.Succeeded?)
    && (forall i, j, c :: 0 <= i < j < |h.invocations| && c in h.completions && c.id == h.invocations[i].id ==>
          c.at < h.invocations[j].at)
  }

  /** The object goes from `m` to `m'` with the result that the client was told. */
  ghost predicate StepTold(h: History, v: Invocation, m: Model, m': Model) {
    exists result :: Told(h, v, result) && Meant(m, v.operation, m', result)
  }

  /** The object, started in `m`, gives the clients' results one after the other. */
  ghost predicate Answered(h: History, m: Model, list: seq<Invocation>, states: seq<Model>) {
    && |states| == |list| + 1 && states[0] == m
    && forall i :: 0 <= i < |list| ==> StepTold(h, list[i], states[i], states[i + 1])
  }

  lemma TheCompletion(h: History, v: Invocation, c: Completion)
    requires DistinctCompletions(h.completions) && c in h.completions && c.id == v.id
    ensures CompletionOf(h, v) == Some(c)
  {
  }

  lemma ToldIs(h: History, v: Invocation, result: Result)
    requires ValidHistory(h) && MustAppear(h, v)
    ensures Told(h, v, result) <==> ExpectedOf(h, v) == Some(result)
  {
    var c := CompletionOf(h, v).value;
    forall d | d in h.completions && d.id == v.id ensures d == c { TheCompletion(h, v, d); }
  }

  lemma SequentialParts(h: History)
    requires ValidHistory(h) && Sequential(h)
    ensures forall v :: v in h.invocations ==> MustAppear(h, v) && ExpectedOf(h, v).Some?
    ensures forall i, j :: 0 <= i < j < |h.invocations| ==> Precedes(h, h.invocations[i], h.invocations[j])
    ensures NoDuplicates(h.invocations)
  {
    forall v | v in h.invocations ensures MustAppear(h, v) && ExpectedOf(h, v).Some? {
      var c :| c in h.completions && c.id == v.id && c.kind.Succeeded?;
      SucceededHasResult(h, v, c);
    }
    hide MustAppear, ExpectedOf, HasInvocation;
    forall i, j | 0 <= i < j < |h.invocations| ensures Precedes(h, h.invocations[i], h.invocations[j]) {
      var v := h.invocations[i];
      var c :| c in h.completions && c.id == v.id && c.kind.Succeeded?;
      TheCompletion(h, v, c);
    }
  }

  lemma SucceededHasResult(h: History, v: Invocation, c: Completion)
    requires ValidHistory(h) && c in h.completions && c.id == v.id && c.kind.Succeeded?
    ensures MustAppear(h, v) && ExpectedOf(h, v).Some?
  {
    TheCompletion(h, v, c);
    var i :| 0 <= i < |h.completions| && h.completions[i] == c;
    assert HasInvocation(h, h.completions[i]);
  }

  /** Where nothing overlaps, only the order of the invocations respects time. */
  lemma {:induction false} OnlyOrder(h: History, list: seq<Invocation>, order: seq<Invocation>)
    requires NoDuplicates(list) && NoDuplicates(order) && (forall v :: v in list <==> v in order)
    requires RespectsTime(h, order) && forall i, j :: 0 <= i < j < |list| ==> Precedes(h, list[i], list[j])
    ensures order == list
  {
    hide Precedes;
    assert order != [] ==> order[0] in list;
    if list != [] {
      assert list[0] in order;
      var p :| 0 <= p < |order| && order[p] == list[0];
      assert order[0] in list;
      var q :| 0 <= q < |list| && list[q] == order[0];
      assert p == 0;
      OnlyOrder(h, Tail(list), Tail(order)) by { TailsMatch(list, order); TailRespects(h, order); }
      assert order == [order[0]] + order[1..] && list == [list[0]] + list[1..];
    }
  }

  function Tail(list: seq<Invocation>): seq<Invocation>
    requires list != []
  {
    list[1..]
  }

  lemma TailsMatch(list: seq<Invocation>, order: seq<Invocation>)
    requires list != [] && order != [] && list[0] == order[0]
    requires NoDuplicates(list) && NoDuplicates(order) && forall v :: v in list <==> v in order
    ensures NoDuplicates(Tail(list)) && NoDuplicates(Tail(order)) && forall v :: v in Tail(list) <==> v in Tail(order)
  {
    assert forall v :: v in list <==> v == list[0] || v in Tail(list);
    assert forall v :: v in order <==> v == order[0] || v in Tail(order);
    assert list[0] !in Tail(list) && order[0] !in Tail(order);
  }

  lemma TailRespects(h: History, order: seq<Invocation>)
    requires order != [] && RespectsTime(h, order)
    ensures RespectsTime(h, Tail(order))
  {
    hide Precedes;
    var rest := Tail(order);
    forall i, j | 0 <= i < j < |rest| ensures !Precedes(h, rest[j], rest[i]) {
      assert rest[i] == order[i + 1] && rest[j] == order[j + 1];
    }
  }

  lemma {:induction false} RunsAnswer(h: History, m: Model, list: seq<Invocation>) returns (states: seq<Model>)
    requires ValidHistory(h) && Runs(h, m, list) && forall v :: v in list ==> MustAppear(h, v) && ExpectedOf(h, v).Some?
    ensures Answered(h, m, list, states)
    decreases |list|
  {
    hide ValidHistory, MustAppear, ExpectedOf, Meant, Told, Apply;
    if list == [] {
      states := [m];
    } else {
      var v := list[0];
      assert v in list;
      var result := ExpectedOf(h, v).value;
      var next := Apply(m, v.operation, Some(result)).value;
      ToldIs(h, v, result);
      AppliesIff(m, v.operation, result, next);
      var rest := RunsAnswer(h, next, list[1..]);
      states := [m] + rest;
      assert StepTold(h, v, m, next);
      hide StepTold;
      forall i | 0 <= i < |list| ensures StepTold(h, list[i], states[i], states[i + 1]) {
        if i > 0 { assert list[i] == list[1..][i - 1] && StepTold(h, list[1..][i - 1], rest[i - 1], rest[i]); }
      }
    }
  }

  lemma {:induction false} AnsweredRuns(h: History, m: Model, list: seq<Invocation>, states: seq<Model>)
    requires ValidHistory(h) && Answered(h, m, list, states) && forall v :: v in list ==> MustAppear(h, v)
    ensures Runs(h, m, list)
    decreases |list|
  {
    hide ValidHistory, MustAppear, ExpectedOf, Meant, Told, Apply;
    if list != [] {
      var v := list[0];
      assert v in list;
      assert StepTold(h, v, states[0], states[1]);
      var result :| Told(h, v, result) && Meant(m, v.operation, states[1], result);
      ToldIs(h, v, result);
      AppliesIff(m, v.operation, result, states[1]);
      AnsweredTail(h, m, list, states);
      AnsweredRuns(h, states[1], list[1..], states[1..]);
    }
  }

  lemma AnsweredTail(h: History, m: Model, list: seq<Invocation>, states: seq<Model>)
    requires Answered(h, m, list, states) && list != []
    ensures Answered(h, states[1], list[1..], states[1..])
  {
    hide StepTold;
    forall i | 0 <= i < |list| - 1 ensures StepTold(h, list[1..][i], states[1..][i], states[1..][i + 1]) {
      assert StepTold(h, list[i + 1], states[i + 1], states[i + 2]);
    }
  }

  /** A history without overlap is linearizable if and only if the object, started empty, gives its
      clients' results in the order of their invocations. */
  lemma SequentialIff(h: History)
    requires ValidHistory(h) && Sequential(h)
    ensures LinearizableHistory(h) <==> exists states :: Answered(h, EMPTY, h.invocations, states)
  {
    SequentialParts(h);
    hide ValidHistory, Sequential, MustAppear, ExpectedOf, Runs, Answered, Precedes;
    if LinearizableHistory(h) {
      var order :| Explains(h, order);
      OnlyOrder(h, h.invocations, order);
      var states := RunsAnswer(h, EMPTY, h.invocations);
    }
    if states :| Answered(h, EMPTY, h.invocations, states) {
      AnsweredRuns(h, EMPTY, h.invocations, states);
      InOrderExplains(h);
    }
  }

  lemma InOrderExplains(h: History)
    requires NoDuplicates(h.invocations) && Runs(h, EMPTY, h.invocations) && ValidHistory(h)
    requires forall v :: v in h.invocations ==> MustAppear(h, v)
    requires forall i, j :: 0 <= i < j < |h.invocations| ==> Precedes(h, h.invocations[i], h.invocations[j])
    ensures Explains(h, h.invocations)
  {
    hide Runs;
    forall i, j | 0 <= i < j < |h.invocations| ensures !Precedes(h, h.invocations[j], h.invocations[i]) {
      assert Precedes(h, h.invocations[i], h.invocations[j]);
      CompletedAfterInvoked(h, h.invocations[i]);
      CompletedAfterInvoked(h, h.invocations[j]);
    }
  }
}
