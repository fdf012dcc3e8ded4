/** The tree-walking interpreter of src/interpreter.rs.

    The meaning of a command list is given by the functions `Run`,
    `LayerLoop`, `SimmerStep` and `SimmerLoop` on a `Machine` (the
    variable bindings and the values printed so far). A `layer` loop need
    not terminate, so these functions take a fuel bound: every iteration of
    a layer loop costs one unit, and the code it runs gets what is left.
    When none is left the outcome is `OutOfFuel`. The class `Interpreter`
    runs the same commands by methods that update its `State` and its
    output in place, each proved equal to the function it implements. */
module Interpreting {
  import opened Wrappers
  import opened Tokens
  import opened ExecCommands
  import opened Store

  /** What the program has observably done: its bindings and what `plate`
      has printed, one value per line. */
  datatype Machine = Machine(variables: map<string, Value>, output: seq<Value>)

  /** How a run ended: normally, by a panic with its message, or with the
      fuel bound reached inside a layer loop. */
  datatype Status = Completed | Panicked(message: string) | OutOfFuel

  datatype Outcome = Outcome(status: Status, machine: Machine)

  /** Rust's `/` on integers: the quotient rounded toward zero. */
  function TruncDiv(a: int, b: int): int
    requires b != 0
  {
    var n := if a < 0 then -a else a;
    var d := if b < 0 then -b else b;
    if (a < 0) == (b < 0) then n / d else -(n / d)
  }

  /** Rust's `%` on integers: the remainder of `TruncDiv`, which has the
      sign of `a`. */
  function TruncMod(a: int, b: int): int
    requires b != 0
  {
    a - b * TruncDiv(a, b)
  }

  /** The pending operator applied to the running result and an operand.
      Dividing by zero panics. */
  function Apply(op: MathsOperation, result: int, n: int): (r: Result<int>)
    ensures r.Fault? <==> (op.Division? || op.Mod?) && n == 0
  {
    match op
    case Plus => Ok(result + n)
    case Minus => Ok(result - n)
    case Multiply => Ok(result * n)
    case Division => if n == 0 then Fault("attempt to divide by zero") else Ok(TruncDiv(result, n))
    case Mod => if n == 0 then Fault("attempt to calculate the remainder with a divisor of zero") else Ok(TruncMod(result, n))
  }

  /** The two loop variables of `execute_maths`. */
  datatype Accumulator = Accumulator(result: int, operation: MathsOperation)

  /** An operand combined with the running result by the pending operator. */
  function Combine(acc: Accumulator, n: int): Result<Option<Accumulator>> {
    var r :- Apply(acc.operation, acc.result, n);
    Ok(Some(Accumulator(r, acc.operation)))
  }

  /** One token of a maths expression: an operand is combined with the
      running result by the pending operator, an operator becomes the
      pending one. An unbound identifier stops the evaluation with no value;
      an identifier bound to a non-number and any other token panic. */
  function MathsToken(t: Token, acc: Accumulator, variables: map<string, Value>): Result<Option<Accumulator>>
  {
    match t
    case Number(n) => Combine(acc, n)
    case Identifier(x) =>
      (match Lookup(variables, x)
       case None => Ok(None)
       case Some(Number(n)) => Combine(acc, n)
       case Some(_) => Fault("Operand should be number"))
    case Maths(op) => Ok(Some(Accumulator(acc.result, op)))
    case _ => Fault("Invalid operation")
  }

  /** The accumulator after the first `k` tokens, starting from 0 and `+`. */
  function MathsPrefix(values: seq<Token>, k: nat, variables: map<string, Value>): Result<Option<Accumulator>>
    requires k <= |values|
  {
    if k == 0 then Ok(Some(Accumulator(0, Plus)))
    else
      match MathsPrefix(values, k - 1, variables)
      case Fault(msg) => Fault(msg)
      case Ok(None) => Ok(None)
      case Ok(Some(acc)) => MathsToken(values[k - 1], acc, variables)
  }

  /** `execute_maths`: the final result as a number value. */
  function EvalMaths(values: seq<Token>, variables: map<string, Value>): (r: Result<Option<Value>>)
    ensures r.Ok? && r.value.Some? ==> r.value.value.Number?
  {
    match MathsPrefix(values, |values|, variables)
    case Fault(msg) => Fault(msg)
    case Ok(None) => Ok(None)
    case Ok(Some(acc)) => Ok(Some(Value.Number(acc.result)))
  }

  /** Once a prefix has stopped (no value, or a panic), every longer prefix
      ends the same way. */
  lemma {:induction false} PrefixStops(values: seq<Token>, i: nat, k: nat, variables: map<string, Value>)
    requires i <= k <= |values|
    requires !(MathsPrefix(values, i, variables).Ok? && MathsPrefix(values, i, variables).value.Some?)
    ensures MathsPrefix(values, k, variables) == MathsPrefix(values, i, variables)
    decreases k - i
  {
    if i < k {
      PrefixStops(values, i, k - 1, variables);
    }
  }

  /** The value `execute_ingredient` binds: the maths result for more than
      one token (none when it has none), otherwise the single token
      converted to a value. No token at all is an index out of bounds. */
  function IngredientValue(identifier: string, values: seq<Token>, variables: map<string, Value>): Result<Option<Value>>
  {
    if |values| > 1 then EvalMaths(values, variables)
    else if |values| == 0 then Fault("index out of bounds")
    else
      match values[0]
      case ArrayNumber(a) => Ok(Some(Value.ArrayNumber(a)))
      case ArrayString(a) => Ok(Some(Value.ArrayString(a)))
      case Number(n) => Ok(Some(Value.Number(n)))
      case StringLiteral(s) => Ok(Some(Value.String(s)))
      case _ => Fault("Invalid value for identifier: " + identifier)
  }

  function IngredientStep(identifier: string, values: seq<Token>, m: Machine): Outcome {
    match IngredientValue(identifier, values, m.variables)
    case Fault(msg) => Outcome(Panicked(msg), m)
    case Ok(None) => Outcome(Completed, m)
    case Ok(Some(v)) => Outcome(Completed, Machine(m.variables[identifier := v], m.output))
  }

  /** The value `execute_plate` prints, none for an unbound identifier. */
  function PlateValue(t: Token, variables: map<string, Value>): Result<Option<Value>> {
    match t
    case Identifier(x) => Ok(Lookup(variables, x))
    case StringLiteral(s) => Ok(Some(Value.String(s)))
    case Number(n) => Ok(Some(Value.Number(n)))
    case ArrayNumber(a) => Ok(Some(Value.ArrayNumber(a)))
    case ArrayString(a) => Ok(Some(Value.ArrayString(a)))
    case _ => Fault("Invalid value passed for Plate")
  }

  function PlateStep(t: Token, m: Machine): Outcome {
    match PlateValue(t, m.variables)
    case Fault(msg) => Outcome(Panicked(msg), m)
    case Ok(None) => Outcome(Completed, m)
    case Ok(Some(v)) => Outcome(Completed, Machine(m.variables, m.output + [v]))
  }

  /** A `Maths` command: evaluated for its panics, its value dropped. */
  function MathsStep(values: seq<Token>, m: Machine): Outcome {
    match EvalMaths(values, m.variables)
    case Fault(msg) => Outcome(Panicked(msg), m)
    case Ok(_) => Outcome(Completed, m)
  }

  const LayerOperandMessage := "Operator should be number for layer"

  /** A layer operand: a number literal, or an identifier bound to a
      number; an unbound identifier gives no value. */
  function Operand(t: Token, variables: map<string, Value>): Result<Option<int>> {
    match t
    case Number(n) => Ok(Some(n))
    case Identifier(x) =>
      (match Lookup(variables, x)
       case None => Ok(None)
       case Some(Number(n)) => Ok(Some(n))
       case Some(_) => Fault(LayerOperandMessage))
    case _ => Fault(LayerOperandMessage)
  }

  /** The six comparison tokens as the integer comparisons they name. */
  function Compare(comparison: Token, a: int, b: int): Result<bool>
  {
    match comparison
    case Hotter => Ok(a > b)
    case Cooler => Ok(a < b)
    case Same => Ok(a == b)
    case HotOrSame => Ok(a >= b)
    case CoolOrSame => Ok(a <= b)
    case NotSame => Ok(a != b)
    case _ => Fault("Invalid comparison operator")
  }

  /** The six comparison tokens compare as their names say. */
  lemma CompareDefined(comparison: Token, a: int, b: int)
    requires IsComparison(comparison)
    ensures Compare(comparison, a, b).Ok?
    ensures Compare(comparison, a, b).value
            == if comparison.Hotter? then a > b
               else if comparison.Cooler? then a < b
               else if comparison.Same? then a == b
               else if comparison.HotOrSame? then a >= b
               else if comparison.CoolOrSame? then a <= b
               else a != b
  {
  }

  /** Any other token is an invalid comparison operator. */
  lemma CompareRejects(comparison: Token, a: int, b: int)
    requires !IsComparison(comparison)
    ensures Compare(comparison, a, b) == Fault("Invalid comparison operator")
  {
  }

  /** The loop condition, read afresh: left operand, right operand, then
      the comparison. No value when an operand is unbound. */
  function Condition(left: Token, right: Token, comparison: Token, variables: map<string, Value>): Result<Option<bool>> {
    match Operand(left, variables)
    case Fault(msg) => Fault(msg)
    case Ok(None) => Ok(None)
    case Ok(Some(a)) =>
      match Operand(right, variables)
      case Fault(msg) => Fault(msg)
      case Ok(None) => Ok(None)
      case Ok(Some(b)) =>
        match Compare(comparison, a, b)
        case Fault(msg) => Fault(msg)
        case Ok(holds) => Ok(Some(holds))
  }

  /** The values a `simmer` loop variable takes for an array value. */
  function Elements(v: Value): seq<Value>
    requires v.ArrayNumber? || v.ArrayString?
  {
    match v
    case ArrayNumber(a) => seq(|a|, i requires 0 <= i < |a| => Value.Number(a[i]))
    case ArrayString(a) => seq(|a|, i requires 0 <= i < |a| => Value.String(a[i]))
  }

  /** `execute`: the commands from index `i` on, in order, stopping at the
      first that does not complete. */
  function Run(commands: seq<ExecCommand>, i: nat, m: Machine, fuel: nat): Outcome
    requires i <= |commands|
    decreases fuel, commands, 0, |commands| - i
  {
    if i == |commands| then Outcome(Completed, m)
    else
      var o := Step(commands[i], m, fuel);
      if o.status.Completed? then Run(commands, i + 1, o.machine, fuel) else o
  }

  /** The dispatch of `execute` on one command. A recipe binds its function
      value; the variants the interpreter does not handle panic. */
  function Step(c: ExecCommand, m: Machine, fuel: nat): Outcome
    decreases fuel, c, 0, 0
  {
    match c
    case Ingredient(x, values) => IngredientStep(x, values, m)
    case Plate(t) => PlateStep(t, m)
    case Layer(left, right, comparison, body) => LayerLoop(left, right, comparison, body, m, fuel)
    case Simmer(x, a, body) => SimmerStep(x, a, body, m, fuel)
    case Recipe(x, params, body) => Outcome(Completed, Machine(m.variables[x := Value.Function(params, body)], m.output))
    case Maths(values) => MathsStep(values, m)
    case Other => Outcome(Panicked("Invalid command"), m)
  }

  /** `execute_layer`: while the condition holds, run the body. */
  function LayerLoop(left: Token, right: Token, comparison: Token, body: seq<ExecCommand>, m: Machine, fuel: nat): Outcome
    decreases fuel, body, 1, 0
  {
    match Condition(left, right, comparison, m.variables)
    case Fault(msg) => Outcome(Panicked(msg), m)
    case Ok(None) => Outcome(Completed, m)
    case Ok(Some(holds)) =>
      if !holds then Outcome(Completed, m)
      else if fuel == 0 then Outcome(OutOfFuel, m)
      else
        var o := Run(body, 0, m, fuel - 1);
        if o.status.Completed? then LayerLoop(left, right, comparison, body, o.machine, fuel - 1) else o
  }

  /** `execute_simmer`: look the array up once, then run the loop over its
      elements. Nothing happens when it is unbound. */
  function SimmerStep(x: string, a: string, body: seq<ExecCommand>, m: Machine, fuel: nat): Outcome
    decreases fuel, body, 2, 0
  {
    match Lookup(m.variables, a)
    case None => Outcome(Completed, m)
    case Some(v) =>
      if v.ArrayNumber? || v.ArrayString? then SimmerLoop(x, Elements(v), 0, body, m, fuel)
      else Outcome(Panicked("for loop is not iteratable"), m)
  }

  /** The iterations from element `i` on: bind `x`, then run the body. */
  function SimmerLoop(x: string, elements: seq<Value>, i: nat, body: seq<ExecCommand>, m: Machine, fuel: nat): Outcome
    requires i <= |elements|
    decreases fuel, body, 1, |elements| - i
  {
    if i == |elements| then Outcome(Completed, m)
    else
      var o := Run(body, 0, Machine(m.variables[x := elements[i]], m.output), fuel);
      if o.status.Completed? then SimmerLoop(x, elements, i + 1, body, o.machine, fuel) else o
  }

  class Interpreter {
    const state: State
    /** The values `plate` has printed, in order. */
    var output: seq<Value>

    function Snapshot(): Machine
      reads this, state
    {
      Machine(state.variables, output)
    }

    constructor ()
      ensures fresh(state)
      ensures Snapshot() == Machine(map[], [])
    {
      state := new State();
      output := [];
    }

    /** `execute`. */
    method Execute(commands: seq<ExecCommand>, fuel: nat) returns (status: Status)
      modifies this, state
      ensures Outcome(status, Snapshot()) == Run(commands, 0, old(Snapshot()), fuel)
      decreases fuel, commands, 0
    {
      for i := 0 to |commands|
        invariant Run(commands, 0, old(Snapshot()), fuel) == Run(commands, i, Snapshot(), fuel)
      {
        match commands[i] {
          case Ingredient(x, values) =>
            var r := ExecuteIngredient(x, values);
            if r.Fault? {
              return Panicked(r.message);
            }
          case Plate(t) =>
            status := ExecutePlate(t);
            if !status.Completed? {
              return;
            }
          case Layer(left, right, comparison, body) =>
            status := ExecuteLayer(left, right, comparison, body, fuel);
            if !status.Completed? {
              return;
            }
          case Simmer(x, a, body) =>
            status := ExecuteSimmer(x, a, body, fuel);
            if !status.Completed? {
              return;
            }
          case Recipe(x, params, body) =>
            var _ := ExecuteRecipe(x, params, body);
          case Maths(values) =>
            var r := ExecuteMaths(values);
            if r.Fault? {
              return Panicked(r.message);
            }
          case Other =>
            return Panicked("Invalid command");
        }
      }
      return Completed;
    }

    /** `execute_maths`: the accumulator loop. The bindings are only read. */
    method ExecuteMaths(values: seq<Token>) returns (r: Result<Option<Value>>)
      ensures r == EvalMaths(values, state.variables)
    {
      var result := 0;
      var operation := Plus;
      for i := 0 to |values|
        invariant MathsPrefix(values, i, state.variables) == Ok(Some(Accumulator(result, operation)))
      {
        var next := ExecuteMathsToken(values[i], result, operation);
        if next.Fault? || next.value.None? {
          PrefixStops(values, i + 1, |values|, state.variables);
          if next.Fault? {
            return Fault(next.message);
          }
          return Ok(None);
        }
        result, operation := next.value.value.result, next.value.value.operation;
      }
      return Ok(Some(Value.Number(result)));
    }

    /** The body of the `execute_maths` loop for one token. */
    method ExecuteMathsToken(t: Token, result: int, operation: MathsOperation)
      returns (r: Result<Option<Accumulator>>)
      ensures r == MathsToken(t, Accumulator(result, operation), state.variables)
    {
      var number: Option<int> := None;
      if t.Number? {
        number := Some(t.number);
      } else if t.Identifier? {
        var value := state.GetVariable(t.name);
        if value.None? {
          return Ok(None);
        }
        if !value.value.Number? {
          return Fault("Operand should be number");
        }
        number := Some(value.value.number);
      }
      if number.Some? {
        return Combine(Accumulator(result, operation), number.value);
      }
      if t.Maths? {
        return Ok(Some(Accumulator(result, t.op)));
      }
      return Fault("Invalid operation");
    }

    /** `execute_ingredient`: binds `identifier` and returns its previous
        value; when the maths has no value nothing is bound. */
    method ExecuteIngredient(identifier: string, values: seq<Token>) returns (r: Result<Option<Value>>)
      modifies state
      ensures var v := IngredientValue(identifier, values, old(state.variables));
              && (v.Fault? ==> r == Fault(v.message) && state.variables == old(state.variables))
              && (v.Ok? && v.value.None? ==> r == Ok(None) && state.variables == old(state.variables))
              && (v.Ok? && v.value.Some? ==>
                    r == Ok(Lookup(old(state.variables), identifier))
                    && state.variables == old(state.variables)[identifier := v.value.value])
    {
      if |values| > 1 {
        var result :- ExecuteMaths(values);
        if result.None? {
          return Ok(None);
        }
        var previous := state.AddVariable(identifier, result.value);
        return Ok(previous);
      }
      if |values| == 0 {
        return Fault("index out of bounds");
      }
      var value: Value;
      match values[0] {
        case ArrayNumber(a) => value := Value.ArrayNumber(a);
        case ArrayString(a) => value := Value.ArrayString(a);
        case Number(n) => value := Value.Number(n);
        case StringLiteral(s) => value := Value.String(s);
        case _ => return Fault("Invalid value for identifier: " + identifier);
      }
      var previous := state.AddVariable(identifier, value);
      return Ok(previous);
    }

    /** One layer operand, read from the current bindings. */
    method ResolveOperand(t: Token) returns (r: Result<Option<int>>)
      ensures r == Operand(t, state.variables)
    {
      match t {
        case Number(n) =>
          return Ok(Some(n));
        case Identifier(x) =>
          var value := state.GetVariable(x);
          if value.None? {
            return Ok(None);
          }
          if value.value.Number? {
            return Ok(Some(value.value.number));
          }
          return Fault(LayerOperandMessage);
        case _ =>
          return Fault(LayerOperandMessage);
      }
    }

    /** `execute_layer`: the loop, with the operands read again on every
        iteration. */
    method ExecuteLayer(left: Token, right: Token, comparison: Token, commands: seq<ExecCommand>, fuel: nat)
      returns (status: Status)
      modifies this, state
      ensures Outcome(status, Snapshot()) == LayerLoop(left, right, comparison, commands, old(Snapshot()), fuel)
      decreases fuel, commands, 1
    {
      var f: nat := fuel;
      while true
        invariant f <= fuel
        invariant LayerLoop(left, right, comparison, commands, old(Snapshot()), fuel)
                  == LayerLoop(left, right, comparison, commands, Snapshot(), f)
        decreases f
      {
        var operand1 := ResolveOperand(left);
        if operand1.Fault? {
          return Panicked(operand1.message);
        }
        if operand1.value.None? {
          return Completed;
        }
        var operand2 := ResolveOperand(right);
        if operand2.Fault? {
          return Panicked(operand2.message);
        }
        if operand2.value.None? {
          return Completed;
        }
        var holds := Compare(comparison, operand1.value.value, operand2.value.value);
        if holds.Fault? {
          return Panicked(holds.message);
        }
        if !holds.value {
          break;
        }
        if f == 0 {
          return OutOfFuel;
        }
        status := Execute(commands, f - 1);
        if !status.Completed? {
          return;
        }
        f := f - 1;
      }
      return Completed;
    }

    /** `execute_simmer`: the array is read once; each element is bound to
        `identifier` before a run of the body. */
    method ExecuteSimmer(identifier: string, arrayIdentifier: string, commands: seq<ExecCommand>, fuel: nat)
      returns (status: Status)
      modifies this, state
      ensures Outcome(status, Snapshot()) == SimmerStep(identifier, arrayIdentifier, commands, old(Snapshot()), fuel)
      decreases fuel, commands, 1
    {
      var value := state.GetVariable(arrayIdentifier);
      if value.None? {
        return Completed;
      }
      if !(value.value.ArrayNumber? || value.value.ArrayString?) {
        return Panicked("for loop is not iteratable");
      }
      var elements := Elements(value.value);
      for i := 0 to |elements|
        invariant SimmerStep(identifier, arrayIdentifier, commands, old(Snapshot()), fuel)
                  == SimmerLoop(identifier, elements, i, commands, Snapshot(), fuel)
      {
        var _ := state.AddVariable(identifier, elements[i]);
        status := Execute(commands, fuel);
        if !status.Completed? {
          return;
        }
      }
      return Completed;
    }

    /** The value the match of `execute_plate` selects for printing: the
        bound value of a name, the literal itself, or a panic. */
    method PrintedValue(t: Token) returns (r: Result<Option<Value>>)
      ensures r == PlateValue(t, state.variables)
    {
      if t.Identifier? {
        var value := state.GetVariable(t.name);
        r := Ok(value);
      } else if t.StringLiteral? {
        r := Ok(Some(Value.String(t.text)));
      } else if t.Number? {
        r := Ok(Some(Value.Number(t.number)));
      } else if t.ArrayNumber? {
        r := Ok(Some(Value.ArrayNumber(t.numbers)));
      } else if t.ArrayString? {
        r := Ok(Some(Value.ArrayString(t.strings)));
      } else {
        r := Fault("Invalid value passed for Plate");
      }
    }

    /** `execute_plate`: appends the value it prints; the bindings are only
        read. */
    method ExecutePlate(t: Token) returns (status: Status)
      modifies this
      ensures Outcome(status, Snapshot()) == PlateStep(t, old(Snapshot()))
    {
      var printed := PrintedValue(t);
      match printed {
        case Fault(msg) => status := Panicked(msg);
        case Ok(None) => status := Completed;
        case Ok(Some(v)) =>
          output := output + [v];
          status := Completed;
      }
    }

    /** `execute_recipe`: binds the function value and returns the previous
        binding. */
    method ExecuteRecipe(identifier: string, params: seq<string>, commands: seq<ExecCommand>)
      returns (previous: Option<Value>)
      modifies state
      ensures state.variables == old(state.variables)[identifier := Value.Function(params, commands)]
      ensures previous == Lookup(old(state.variables), identifier)
    {
      previous := state.AddVariable(identifier, Value.Function(params, commands));
    }
  }
}
