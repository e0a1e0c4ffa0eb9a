/** The sequential object that a history is checked against: a revisioned key-value map. */
module LinearModel {
  import opened RaftTypes
  import opened ByteCodec

  type Text = Bytes

  datatype Versioned = Versioned(value: Text, modified: int)

  datatype Operation =
    | Get(key: Text)
    | Put(key: Text, value: Text)
    | Erase(key: Text)
    | CompareAndSwap(key: Text, expected: Option<Text>, desired: Option<Text>)

  datatype Result =
    | GetResult(found: Option<Versioned>, revision: int)
    | PutResult(revision: int)
    | EraseResult(erased: bool, revision: int)
    | CasResult(exchanged: bool, revision: int)

  datatype Model = Model(revision: int, values: map<Text, Versioned>)

  /** The largest `std::int64_t`; a revision never passes it. */
  const REVISION_MAX: int := 0x7FFF_FFFF_FFFF_FFFF

  const EMPTY: Model := Model(0, map[])

  predicate Matches(operation: Operation, result: Result) {
    match operation
    case Get(_) => result.GetResult?
    case Put(_, _) => result.PutResult?
    case Erase(_) => result.EraseResult?
    case CompareAndSwap(_, _, _) => result.CasResult?
  }

  /** The state and result of one operation; None when it would exhaust the revisions. */
  function Perform(m: Model, operation: Operation): Option<(Model, Result)> {
    match operation
    case Get(key) =>
      Some((m, GetResult(if key in m.values then Some(m.values[key]) else None, m.revision)))
    case Put(key, value) =>
      if m.revision == REVISION_MAX then None
      else
        var next := m.revision + 1;
        Some((Model(next, m.values[key := Versioned(value, next)]), PutResult(next)))
    case Erase(key) =>
      if key !in m.values then Some((m, EraseResult(false, m.revision)))
      else if m.revision == REVISION_MAX then None
      else Some((Model(m.revision + 1, m.values - {key}), EraseResult(true, m.revision + 1)))
    case CompareAndSwap(key, expected, desired) =>
      var exchanged :=
        if expected.None? then key !in m.values
        else key in m.values && m.values[key].value == expected.value;
      var mutates := exchanged && (desired.Some? || key in m.values);
      if !mutates then Some((m, CasResult(exchanged, m.revision)))
      else if m.revision == REVISION_MAX then None
      else
        var next := m.revision + 1;
        Some((Model(next, if desired.Some? then m.values[key := Versioned(desired.value, next)]
                          else m.values - {key}),
              CasResult(true, next)))
  }

  /** An operation with an expected result applies only if it gives that result. */
  function Apply(m: Model, operation: Operation, expected: Option<Result>): Option<Model> {
    var done := Perform(m, operation);
    if done.None? || (expected.Some? && expected.value != done.value.1) then None
    else Some(done.value.0)
  }

  lemma GetChangesNothing(m: Model, operation: Operation)
    requires operation.Get?
    ensures Apply(m, operation, None) == Some(m)
  {
  }
}
