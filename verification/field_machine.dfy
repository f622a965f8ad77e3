/**
 * Sequences of model operations, and the per-field view of them: every
 * declared field is a two-state machine (NotSet, or Holding a non-null value)
 * and `get` reads the machine's state, falling back to the declared default.
 */
module FieldMachine {
  import opened Values
  import opened Results
  import opened FieldModel

  /** One call on the model's public surface. */
  datatype Op =
    | SetOp(field: string, value: Value)
    | UnsetOp(field: string)
    | GetOp(field: string)
    | RequireOp(field: string)
    | SaveOp
    | LoadOp

  /** Whether `op` can succeed on a model with these declared fields and, or without, an adapter. */
  predicate Allowed(fields: map<string, Value>, hasStorage: bool, op: Op)
  {
    match op
    case SetOp(f, _) => f in fields
    case GetOp(f) => f in fields
    case RequireOp(f) => f in fields
    case UnsetOp(_) => true
    case SaveOp => hasStorage
    case LoadOp => true
  }

  /** The model after one call; `get` and `_require` return values but leave the model as it was. */
  function Apply(m: Model, op: Op): (r: Result<Model>)
  {
    match op
    case SetOp(f, v) => Set(m, f, v)
    case UnsetOp(f) => Ok(Unset(m, f))
    case GetOp(f) => (var _ :- Get(m, f); Ok(m))
    case RequireOp(f) => Require(m, f)
    case SaveOp => Save(m)
    case LoadOp => Ok(Load(m))
  }

  /** A call sequence; the first failing call aborts the rest, as an uncaught exception would. */
  function Run(m: Model, ops: seq<Op>): (r: Result<Model>)
    decreases |ops|
  {
    if ops == [] then Ok(m)
    else
      var next :- Apply(m, ops[0]);
      Run(next, ops[1..])
  }

  /**
   * A single call fails exactly when it is not allowed, and a successful
   * call never changes the declared fields, the options or whether there is
   * an adapter.
   */
  lemma ApplyFrame(m: Model, op: Op)
    ensures Apply(m, op).Ok? <==> Allowed(m.fields, m.storage.Some?, op)
    ensures Apply(m, op).Ok? ==>
              && Apply(m, op).value.fields == m.fields
              && Apply(m, op).value.options == m.options
              && Apply(m, op).value.storage.Some? == m.storage.Some?
    ensures Apply(m, op).Ok? && (op.GetOp? || op.RequireOp? || op.LoadOp?) ==> Apply(m, op).value == m
  {
  }

  /** Running one more call after a sequence is applying it to the sequence's outcome. */
  lemma {:induction false} RunSnoc(m: Model, ops: seq<Op>, op: Op)
    ensures Run(m, ops + [op]) == (match Run(m, ops) case Err(e) => Err(e) case Ok(last) => Apply(last, op))
    decreases |ops|
  {
    if ops == [] {
      assert ops + [op] == [op];
    } else {
      assert (ops + [op])[0] == ops[0];
      assert (ops + [op])[1..] == ops[1..] + [op];
      if Apply(m, ops[0]).Ok? {
        RunSnoc(Apply(m, ops[0]).value, ops[1..], op);
      }
    }
  }

  /**
   * `get`, `_require` and `load` are pure reads: appended to a successful call
   * sequence, `get` and `_require` fail exactly for an undeclared field, `load`
   * never fails, and a read that succeeds leaves the outcome as it was.
   */
  lemma ReadsAreNeutral(m: Model, ops: seq<Op>, op: Op)
    requires op.GetOp? || op.RequireOp? || op.LoadOp?
    requires Run(m, ops).Ok?
    ensures Run(m, ops + [op]).Err? <==> !op.LoadOp? && op.field !in m.fields
    ensures Run(m, ops + [op]).Ok? ==> Run(m, ops + [op]) == Run(m, ops)
  {
    RunSnoc(m, ops, op);
    RunKeepsDeclaredFields(m, ops);
    ApplyFrame(Run(m, ops).value, op);
  }

  /** A call sequence succeeds exactly when every call in it is allowed on the initial model. */
  lemma {:induction false} RunSucceedsIff(m: Model, ops: seq<Op>)
    ensures Run(m, ops).Ok? <==> forall i :: 0 <= i < |ops| ==> Allowed(m.fields, m.storage.Some?, ops[i])
    decreases |ops|
  {
    if ops != [] {
      ApplyFrame(m, ops[0]);
      if Apply(m, ops[0]).Ok? {
        var next := Apply(m, ops[0]).value;
        RunSucceedsIff(next, ops[1..]);
        assert forall i :: 1 <= i < |ops| ==> ops[i] == ops[1..][i - 1];
      }
    }
  }

  /** The declared fields and the options never change over any successful call sequence. */
  lemma {:induction false} RunKeepsDeclaredFields(m: Model, ops: seq<Op>)
    requires Run(m, ops).Ok?
    ensures Run(m, ops).value.fields == m.fields
    ensures Run(m, ops).value.options == m.options
    ensures forall f :: Has(Run(m, ops).value, f) <==> Has(m, f)
    decreases |ops|
  {
    if ops != [] {
      ApplyFrame(m, ops[0]);
      RunKeepsDeclaredFields(Apply(m, ops[0]).value, ops[1..]);
    }
  }

  /** Every overlay key names a declared field. */
  ghost predicate OverlayDeclared(m: Model)
  {
    m.values.Keys <= m.fields.Keys
  }

  /** An overlay that holds only declared fields keeps holding only declared fields. */
  lemma {:induction false} RunKeepsOverlayDeclared(m: Model, ops: seq<Op>)
    requires OverlayDeclared(m)
    requires Run(m, ops).Ok?
    ensures OverlayDeclared(Run(m, ops).value)
    decreases |ops|
  {
    if ops != [] {
      var next := Apply(m, ops[0]).value;
      assert OverlayDeclared(next);
      RunKeepsOverlayDeclared(next, ops[1..]);
    }
  }

  /** The number of `save` calls in a sequence. */
  function SaveCount(ops: seq<Op>): nat
    decreases |ops|
  {
    if ops == [] then 0 else (if ops[0] == SaveOp then 1 else 0) + SaveCount(ops[1..])
  }

  /**
   * The adapter receives one array per `save` call, appended after what it
   * had already been handed; earlier entries are never rewritten.
   */
  lemma {:induction false} RunRecordsEverySave(m: Model, ops: seq<Op>)
    requires m.storage.Some?
    requires Run(m, ops).Ok?
    ensures Run(m, ops).value.storage.Some?
    ensures Run(m, ops).value.storage.value.className == m.storage.value.className
    ensures |Run(m, ops).value.storage.value.saved| == |m.storage.value.saved| + SaveCount(ops)
    ensures m.storage.value.saved <= Run(m, ops).value.storage.value.saved
    decreases |ops|
  {
    if ops != [] {
      var next := Apply(m, ops[0]).value;
      assert next.storage.Some? && next.storage.value.className == m.storage.value.className;
      assert m.storage.value.saved <= next.storage.value.saved;
      assert |next.storage.value.saved| == |m.storage.value.saved| + (if ops[0] == SaveOp then 1 else 0);
      RunRecordsEverySave(next, ops[1..]);
    }
  }

  /** The state of one declared field. */
  datatype FieldState = NotSet | Holding(value: Value)

  /** The machine state of a field: Holding its overlay value when `__isset` holds, NotSet otherwise. */
  function StateOf(m: Model, field: string): (s: FieldState)
  {
    if IsSet(m, field) then Holding(m.values[field]) else NotSet
  }

  /**
   * The transition of `field`'s machine under one call: `set` to a non-null
   * value holds it, `set` to null or `unset` leaves it NotSet, and calls on
   * other fields or on the model as a whole change nothing.
   */
  function Step(s: FieldState, field: string, op: Op): (s': FieldState)
  {
    match op
    case SetOp(g, v) => if g != field then s else if v == Null then NotSet else Holding(v)
    case UnsetOp(g) => if g != field then s else NotSet
    case GetOp(_) => s
    case RequireOp(_) => s
    case SaveOp => s
    case LoadOp => s
  }

  /** The machine run over a whole call sequence. */
  function Replay(s: FieldState, field: string, ops: seq<Op>): (s': FieldState)
    decreases |ops|
  {
    if ops == [] then s else Replay(Step(s, field, ops[0]), field, ops[1..])
  }

  /** What `get` reports for a field in state `s` with declared default `default`. */
  function Observe(s: FieldState, default: Value): (v: Value)
  {
    match s
    case NotSet => default
    case Holding(v) => v
  }

  /** A Holding state never holds null. */
  lemma StateOfNeverHoldsNull(m: Model, field: string)
    ensures StateOf(m, field).Holding? ==> StateOf(m, field).value != Null
  {
  }

  /** `get` on a declared field reads its machine state, falling back to the declared default. */
  lemma GetObservesState(m: Model, field: string)
    requires Has(m, field)
    ensures Get(m, field) == Ok(Observe(StateOf(m, field), m.fields[field]))
  {
  }

  /** One successful call moves every declared field's machine by exactly one `Step`. */
  lemma StepSimulates(m: Model, op: Op, field: string)
    requires Has(m, field)
    requires Apply(m, op).Ok?
    ensures StateOf(Apply(m, op).value, field) == Step(StateOf(m, field), field, op)
  {
  }

  /** A successful call sequence moves every declared field's machine by `Replay`. */
  lemma {:induction false} RunSimulates(m: Model, ops: seq<Op>, field: string)
    requires Has(m, field)
    requires Run(m, ops).Ok?
    ensures StateOf(Run(m, ops).value, field) == Replay(StateOf(m, field), field, ops)
    decreases |ops|
  {
    if ops != [] {
      var next := Apply(m, ops[0]).value;
      StepSimulates(m, ops[0], field);
      ApplyFrame(m, ops[0]);
      RunSimulates(next, ops[1..], field);
    }
  }

  /**
   * After any successful call sequence, `get` on a declared field returns
   * what its two-state machine predicts: the last non-null value set and
   * not unset since, or else the declared default.
   */
  lemma RunGetAgreesWithMachine(m: Model, ops: seq<Op>, field: string)
    requires Has(m, field)
    requires Run(m, ops).Ok?
    ensures Get(Run(m, ops).value, field) == Ok(Observe(Replay(StateOf(m, field), field, ops), m.fields[field]))
  {
    RunKeepsDeclaredFields(m, ops);
    RunSimulates(m, ops, field);
    GetObservesState(Run(m, ops).value, field);
  }
}
