/**
 * The "agile" calculator: an operation registry filled from feature toggles,
 * a dispatcher that refuses unregistered names, safe division that yields a
 * +infinity sentinel, and an optional append-only history of calls.
 *
 * Numbers are exact reals; the float("inf") that division by zero produces
 * is the PosInf case of Value.
 */
module Agile {

  /** The feature-toggle table: one switch per operation plus "history". */
  datatype Toggles = Toggles(add: bool, subtract: bool, multiply: bool, divide: bool, history: bool)

  /** The table as shipped: the four operations on, history off. */
  const FeatureTable := Toggles(true, true, true, true, false)

  /** The names under which operations can be registered. */
  const OpNames: set<string> := {"add", "subtract", "multiply", "divide"}

  /** Whether the toggle called `name` is on; a name without a toggle reads as off. */
  function Enabled(t: Toggles, name: string): (on: bool)
    ensures on ==> name in OpNames || name == "history"
  {
    match name
    case "add" => t.add
    case "subtract" => t.subtract
    case "multiply" => t.multiply
    case "divide" => t.divide
    case "history" => t.history
    case _ => false
  }

  /** The operation a registry entry holds (the program's registry holds a lambda per name). */
  datatype Op = Add | Subtract | Multiply | Divide
  {
    /** The registry key this operation is stored under. */
    function Name(): string
    {
      match this
      case Add => "add"
      case Subtract => "subtract"
      case Multiply => "multiply"
      case Divide => "divide"
    }
  }

  /** A result: a finite number, or the +infinity sentinel of safe division. */
  datatype Value = Finite(x: real) | PosInf

  /** The two ways the calculator refuses a request. */
  datatype Error =
    | NotAvailable(op: string)   // the name is not in the registry
    | HistoryDisabled            // history was asked for while its toggle is off

  datatype Result<T> = Ok(value: T) | Err(error: Error)

  /** One history record: the call and what it returned. */
  datatype Entry = Entry(op: string, a: real, b: real, result: Value)

  /** One call of Run, successful or not. */
  datatype Call = Call(op: string, a: real, b: real)

  /** What the lambda registered for `o` computes. */
  function Apply(o: Op, a: real, b: real): (r: Value)
    ensures r == PosInf <==> o == Divide && b == 0.0
    ensures o == Add ==> r.Finite? && r.x - b == a
    ensures o == Subtract ==> r.Finite? && r.x + b == a
    ensures o == Multiply ==> r == Finite(a * b)
    ensures o == Divide && b != 0.0 ==> r.Finite? && r.x * b == a
  {
    match o
    case Add => Finite(a + b)
    case Subtract => Finite(a - b)
    case Multiply => Finite(a * b)
    case Divide => if b != 0.0 then Finite(a / b) else PosInf
  }

  /** The operation registered under `name`, for one of the four operation names. */
  function OpOf(name: string): (o: Op)
    requires name in OpNames
    ensures o.Name() == name
  {
    match name
    case "add" => Add
    case "subtract" => Subtract
    case "multiply" => Multiply
    case _ => Divide
  }

  /** The registry a calculator built under toggles `t` holds. */
  function Registry(t: Toggles): (ops: map<string, Op>)
    ensures forall name :: name in ops <==> name in OpNames && Enabled(t, name)
    ensures forall name :: name in ops ==> ops[name].Name() == name
    ensures "history" !in ops
  {
    map name | name in OpNames && Enabled(t, name) :: OpOf(name)
  }

  /** Looking `op` up in the registry and applying what is found. */
  function Dispatch(ops: map<string, Op>, op: string, a: real, b: real): (r: Result<Value>)
    ensures r.Ok? <==> op in ops
    ensures r.Err? ==> r.error == NotAvailable(op)
  {
    if op in ops then Ok(Apply(ops[op], a, b)) else Err(NotAvailable(op))
  }

  /** The history that a sequence of calls leaves: one entry per successful call, in call order. */
  function Recorded(ops: map<string, Op>, calls: seq<Call>): (h: seq<Entry>)
    ensures forall j :: 0 <= j < |h| ==> h[j].op in ops
  {
    if calls == [] then []
    else
      var c := calls[|calls| - 1];
      Recorded(ops, calls[..|calls| - 1]) +
        match Dispatch(ops, c.op, c.a, c.b)
        case Ok(v) => [Entry(c.op, c.a, c.b, v)]
        case Err(_) => []
  }

  /** The result of `run` under toggles `t`, stated name by name. */
  lemma RunByName(t: Toggles, op: string, a: real, b: real)
    ensures Dispatch(Registry(t), op, a, b).Ok? <==> op in OpNames && Enabled(t, op)
    ensures Dispatch(Registry(t), op, a, b).Err? ==> Dispatch(Registry(t), op, a, b).error == NotAvailable(op)
    ensures op == "add" && t.add ==> Dispatch(Registry(t), op, a, b) == Ok(Finite(a + b))
    ensures op == "subtract" && t.subtract ==> Dispatch(Registry(t), op, a, b) == Ok(Finite(a - b))
    ensures op == "multiply" && t.multiply ==> Dispatch(Registry(t), op, a, b) == Ok(Finite(a * b))
    ensures op == "divide" && t.divide && b != 0.0 ==> Dispatch(Registry(t), op, a, b) == Ok(Finite(a / b))
    ensures op == "divide" && t.divide && b == 0.0 ==> Dispatch(Registry(t), op, a, b) == Ok(PosInf)
  {
    var ops := Registry(t);
    if op in ops {
      assert ops[op].Name() == op;
      var o := ops[op];
      assert Dispatch(ops, op, a, b) == Ok(Apply(o, a, b));
      if op == "add" {
        assert o == Add;
      } else if op == "subtract" {
        assert o == Subtract;
      } else if op == "multiply" {
        assert o == Multiply;
      } else if op == "divide" {
        assert o == Divide;
      }
    }
  }

  /** "history" is a toggle, never an operation: running it always fails. */
  lemma HistoryIsNotAnOperation(t: Toggles, a: real, b: real)
    ensures Dispatch(Registry(t), "history", a, b) == Err(NotAvailable("history"))
  {
  }

  /** Under the shipped table all four operations are registered and history is off. */
  lemma ShippedRegistry()
    ensures Registry(FeatureTable).Keys == OpNames
    ensures !FeatureTable.history
  {
    assert forall name :: name in OpNames ==> Enabled(FeatureTable, name);
  }

  /** Every history entry is a registered operation applied to its own operands. */
  lemma {:induction false} RecordedSound(ops: map<string, Op>, calls: seq<Call>, i: nat)
    requires i < |Recorded(ops, calls)|
    ensures Recorded(ops, calls)[i].op in ops
    ensures Recorded(ops, calls)[i].result == Apply(ops[Recorded(ops, calls)[i].op], Recorded(ops, calls)[i].a, Recorded(ops, calls)[i].b)
  {
    var init := calls[..|calls| - 1];
    if i < |Recorded(ops, init)| {
      RecordedSound(ops, init, i);
    }
  }

  /** The history never has more entries than there were calls. */
  lemma {:induction false} RecordedLength(ops: map<string, Op>, calls: seq<Call>)
    ensures |Recorded(ops, calls)| <= |calls|
  {
    if calls != [] {
      RecordedLength(ops, calls[..|calls| - 1]);
    }
  }

  /** When every call names a registered operation, the history is the calls themselves, entry by entry. */
  lemma {:induction false} RecordedAllSucceed(ops: map<string, Op>, calls: seq<Call>)
    requires forall j :: 0 <= j < |calls| ==> calls[j].op in ops
    ensures |Recorded(ops, calls)| == |calls|
    ensures forall j :: 0 <= j < |calls| ==>
      Recorded(ops, calls)[j] == Entry(calls[j].op, calls[j].a, calls[j].b, Apply(ops[calls[j].op], calls[j].a, calls[j].b))
  {
    if calls != [] {
      RecordedAllSucceed(ops, calls[..|calls| - 1]);
    }
  }

  /** The history of a log is the history of its first part followed by that of the rest. */
  lemma {:induction false} RecordedAppend(ops: map<string, Op>, first: seq<Call>, rest: seq<Call>)
    ensures Recorded(ops, first + rest) == Recorded(ops, first) + Recorded(ops, rest)
  {
    if rest == [] {
      assert first + rest == first;
    } else {
      var init := rest[..|rest| - 1];
      assert (first + rest)[..|first + rest| - 1] == first + init;
      assert (first + rest)[|first + rest| - 1] == rest[|rest| - 1];
      RecordedAppend(ops, first, init);
    }
  }

  /** Calls on unregistered names leave no trace in the history. */
  lemma {:induction false} RecordedAllFail(ops: map<string, Op>, calls: seq<Call>)
    requires forall j :: 0 <= j < |calls| ==> calls[j].op !in ops
    ensures Recorded(ops, calls) == []
  {
    if calls != [] {
      RecordedAllFail(ops, calls[..|calls| - 1]);
    }
  }

  /** The calculator object: a registry fixed at construction and a history list appended in place. */
  class AgileCalculator {
    const features: Toggles
    var ops: map<string, Op>
    var history: seq<Entry>
    /** Every call of Run so far, in order, successful or not. */
    ghost var calls: seq<Call>

    ghost predicate Valid()
      reads this
    {
      && ops == Registry(features)
      && history == (if features.history then Recorded(ops, calls) else [])
    }

    /** Fills the registry with the operations whose toggle is on; the history starts empty. */
    constructor (features: Toggles)
      ensures Valid()
      ensures this.features == features && ops == Registry(features)
      ensures history == [] && calls == []
    {
      this.features := features;
      history := [];
      calls := [];
      ops := map[];
      new;
      if features.add {
        ops := ops["add" := Add];
      }
      if features.subtract {
        ops := ops["subtract" := Subtract];
      }
      if features.multiply {
        ops := ops["multiply" := Multiply];
      }
      if features.divide {
        ops := ops["divide" := Divide];
      }
    }

    /**
     * Runs `op` on `a` and `b` if it is registered, and records the call when
     * the history toggle is on. A refused call changes nothing.
     */
    method Run(op: string, a: real, b: real) returns (r: Result<Value>)
      requires Valid()
      modifies this`history, this`calls
      ensures Valid()
      ensures calls == old(calls) + [Call(op, a, b)]
      ensures r.Err? <==> op !in ops
      ensures r.Err? ==> r.error == NotAvailable(op)
      ensures r.Ok? ==> r.value == Apply(ops[op], a, b)
      ensures history == if features.history && r.Ok?
                         then old(history) + [Entry(op, a, b, r.value)]
                         else old(history)
    {
      if op !in ops {
        r := Err(NotAvailable(op));
      } else {
        var result := Apply(ops[op], a, b);
        if features.history {
          history := history + [Entry(op, a, b, result)];
        }
        r := Ok(result);
      }
      calls := calls + [Call(op, a, b)];
      assert calls[..|calls| - 1] == old(calls);
    }

    /** A copy of the history, or HistoryDisabled when its toggle is off. */
    method GetHistory() returns (r: Result<seq<Entry>>)
      requires Valid()
      ensures features.history ==> r == Ok(history)
      ensures features.history ==> r == Ok(Recorded(Registry(features), calls))
      ensures !features.history ==> r == Err(HistoryDisabled)
    {
      if !features.history {
        return Err(HistoryDisabled);
      }
      r := Ok(history);
    }
  }

  /** Two identical calls on one calculator return the same result, whatever lies between them in the history. */
  method RunIsRepeatable(c: AgileCalculator, op: string, a: real, b: real) returns (r1: Result<Value>, r2: Result<Value>)
    requires c.Valid()
    modifies c
    ensures c.Valid()
    ensures r1 == r2 == Dispatch(Registry(c.features), op, a, b)
  {
    r1 := c.Run(op, a, b);
    r2 := c.Run(op, a, b);
  }

  /** The program's self-checks (`_tests`), on a calculator built from the shipped table. */
  method SelfTest() returns (sum: Result<Value>, difference: Result<Value>, product: Result<Value>,
                             quotient: Result<Value>, log: Result<seq<Entry>>)
    ensures sum == Ok(Finite(5.0))
    ensures difference == Ok(Finite(3.0))
    ensures product == Ok(Finite(12.0))
    ensures quotient == Ok(PosInf)
    ensures log == Err(HistoryDisabled)
  {
    var calculator := new AgileCalculator(FeatureTable);
    ShippedRegistry();
    sum := calculator.Run("add", 2.0, 3.0);
    difference := calculator.Run("subtract", 7.0, 4.0);
    product := calculator.Run("multiply", 3.0, 4.0);
    quotient := calculator.Run("divide", 10.0, 0.0);
    log := calculator.GetHistory();
  }
}
