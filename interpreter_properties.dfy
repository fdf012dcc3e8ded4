/** What the interpreter of src/interpreter.rs guarantees, stated about
    the functions of module Interpreting. */
module InterpreterProperties {
  import opened Wrappers
  import opened Tokens
  import opened ExecCommands
  import opened Store
  import opened Interpreting

  // ---------------------------------------------------------------------
  // One turn of a layer loop.

  /** A turn of a layer loop whose condition holds: the body runs with one
      unit of fuel less, and the loop goes on only when it completed. */
  lemma LayerIteration(left: Token, right: Token, comparison: Token, body: seq<ExecCommand>, m: Machine, fuel: nat)
    requires Condition(left, right, comparison, m.variables) == Ok(Some(true)) && fuel > 0
    ensures var o := Run(body, 0, m, fuel - 1);
            LayerLoop(left, right, comparison, body, m, fuel)
            == if o.status.Completed? then LayerLoop(left, right, comparison, body, o.machine, fuel - 1) else o
  {
  }

  /** A layer loop whose condition does not hold, or cannot be read, ends
      at once whatever the fuel. */
  lemma LayerNoIteration(left: Token, right: Token, comparison: Token, body: seq<ExecCommand>, m: Machine,
                         fuel: nat, more: nat)
    requires Condition(left, right, comparison, m.variables) != Ok(Some(true))
    ensures LayerLoop(left, right, comparison, body, m, fuel) == LayerLoop(left, right, comparison, body, m, more)
    ensures !LayerLoop(left, right, comparison, body, m, fuel).status.OutOfFuel?
  {
  }

  // ---------------------------------------------------------------------
  // Fuel: a run that ends without exhausting its fuel ends the same way
  // with any larger amount, so the fuel bound only cuts off runs that
  // would go on longer, never changes how a run ends.

  lemma {:induction false} RunFuel(commands: seq<ExecCommand>, i: nat, m: Machine, fuel: nat, more: nat)
    requires i <= |commands| && fuel <= more
    requires !Run(commands, i, m, fuel).status.OutOfFuel?
    ensures Run(commands, i, m, more) == Run(commands, i, m, fuel)
    decreases fuel, commands, 0, |commands| - i
  {
    if i < |commands| {
      StepFuel(commands[i], m, fuel, more);
      var o := Step(commands[i], m, fuel);
      if o.status.Completed? {
        RunFuel(commands, i + 1, o.machine, fuel, more);
      }
    }
  }

  lemma {:induction false} StepFuel(c: ExecCommand, m: Machine, fuel: nat, more: nat)
    requires fuel <= more
    requires !Step(c, m, fuel).status.OutOfFuel?
    ensures Step(c, m, more) == Step(c, m, fuel)
    decreases fuel, c, 0, 0
  {
    match c
    case Layer(left, right, comparison, body) => LayerFuel(left, right, comparison, body, m, fuel, more);
    case Simmer(x, a, body) => SimmerStepFuel(x, a, body, m, fuel, more);
    case _ =>
  }

  lemma {:induction false} LayerFuel(left: Token, right: Token, comparison: Token, body: seq<ExecCommand>,
                                     m: Machine, fuel: nat, more: nat)
    requires fuel <= more
    requires !LayerLoop(left, right, comparison, body, m, fuel).status.OutOfFuel?
    ensures LayerLoop(left, right, comparison, body, m, more) == LayerLoop(left, right, comparison, body, m, fuel)
    decreases fuel, body, 1, 0
  {
    if Condition(left, right, comparison, m.variables) != Ok(Some(true)) {
      LayerNoIteration(left, right, comparison, body, m, fuel, more);
    } else if fuel > 0 {
      var o := Run(body, 0, m, fuel - 1);
      LayerIteration(left, right, comparison, body, m, fuel);
      LayerIteration(left, right, comparison, body, m, more);
      RunFuel(body, 0, m, fuel - 1, more - 1);
      if o.status.Completed? {
        LayerFuel(left, right, comparison, body, o.machine, fuel - 1, more - 1);
      }
    }
  }

  lemma {:induction false} SimmerStepFuel(x: string, a: string, body: seq<ExecCommand>, m: Machine, fuel: nat, more: nat)
    requires fuel <= more
    requires !SimmerStep(x, a, body, m, fuel).status.OutOfFuel?
    ensures SimmerStep(x, a, body, m, more) == SimmerStep(x, a, body, m, fuel)
    decreases fuel, body, 2, 0
  {
    if a in m.variables && (m.variables[a].ArrayNumber? || m.variables[a].ArrayString?) {
      SimmerLoopFuel(x, Elements(m.variables[a]), 0, body, m, fuel, more);
    }
  }

  lemma {:induction false} SimmerLoopFuel(x: string, elements: seq<Value>, i: nat, body: seq<ExecCommand>,
                                          m: Machine, fuel: nat, more: nat)
    requires i <= |elements| && fuel <= more
    requires !SimmerLoop(x, elements, i, body, m, fuel).status.OutOfFuel?
    ensures SimmerLoop(x, elements, i, body, m, more) == SimmerLoop(x, elements, i, body, m, fuel)
    decreases fuel, body, 1, |elements| - i
  {
    if i < |elements| {
      var bound := Machine(m.variables[x := elements[i]], m.output);
      RunFuel(body, 0, bound, fuel, more);
      var o := Run(body, 0, bound, fuel);
      if o.status.Completed? {
        SimmerLoopFuel(x, elements, i + 1, body, o.machine, fuel, more);
      }
    }
  }

  // ---------------------------------------------------------------------
  // Truncating division and remainder.

  function Abs(n: int): nat {
    if n < 0 then -n else n
  }

  /** `TruncDiv` and `TruncMod` are Rust's `/` and `%`: the quotient is
      rounded toward zero and the remainder, smaller than the divisor in
      magnitude, takes the sign of the dividend. */
  lemma TruncDivision(a: int, b: int)
    requires b != 0
    ensures a == b * TruncDiv(a, b) + TruncMod(a, b)
    ensures Abs(TruncMod(a, b)) < Abs(b)
    ensures a >= 0 ==> TruncMod(a, b) >= 0
    ensures a <= 0 ==> TruncMod(a, b) <= 0
    ensures Abs(b) * Abs(TruncDiv(a, b)) <= Abs(a)
  {
    var n: int, d: int := Abs(a), Abs(b);
    var q: int, r: int := n / d, n % d;
    assert n == d * q + r && 0 <= r < d;
    assert Abs(TruncDiv(a, b)) == q;
    assert b * TruncDiv(a, b) == (if a < 0 then -(d * q) else d * q) by {
      if b < 0 {
        assert b == -d;
        assert b * TruncDiv(a, b) == -(d * TruncDiv(a, b));
      } else {
        assert b == d;
      }
    }
    assert TruncMod(a, b) == (if a < 0 then -r else r);
  }

  /** Where Rust and Euclidean division differ: -7 / 2 is -3 and -7 % 2 is
      -1 in Rust. */
  lemma NegativeDividend()
    ensures TruncDiv(-7, 2) == -3 && TruncMod(-7, 2) == -1
    ensures TruncDiv(7, -2) == -3 && TruncMod(7, -2) == 1
  {
  }

  // ---------------------------------------------------------------------
  // execute_maths is a left-to-right fold with no precedence.

  /** An alternating expression `first op1 n1 op2 n2 ...` as tokens. */
  function Expression(first: int, rest: seq<(MathsOperation, int)>): (ts: seq<Token>)
    ensures |ts| == 2 * |rest| + 1
    decreases |rest|
  {
    if rest == [] then [Token.Number(first)]
    else
      var last := rest[|rest| - 1];
      Expression(first, rest[..|rest| - 1]) + [Token.Maths(last.0), Token.Number(last.1)]
  }

  /** The left-nested reading `((first op1 n1) op2 n2) ...` of the same
      expression: each operator applies to everything before it. */
  function LeftNested(first: int, rest: seq<(MathsOperation, int)>): Result<int>
    decreases |rest|
  {
    if rest == [] then Ok(first)
    else
      var last := rest[|rest| - 1];
      var v :- LeftNested(first, rest[..|rest| - 1]);
      Apply(last.0, v, last.1)
  }

  function LastOperation(rest: seq<(MathsOperation, int)>): MathsOperation {
    if rest == [] then Plus else rest[|rest| - 1].0
  }

  /** Tokens after the first `k` do not affect the first `k` steps. */
  lemma {:induction false} PrefixOfLonger(values: seq<Token>, more: seq<Token>, k: nat, variables: map<string, Value>)
    requires k <= |values|
    ensures MathsPrefix(values + more, k, variables) == MathsPrefix(values, k, variables)
  {
    if k > 0 {
      PrefixOfLonger(values, more, k - 1, variables);
      assert (values + more)[k - 1] == values[k - 1];
    }
  }

  lemma {:induction false} FoldIsLeftNested(first: int, rest: seq<(MathsOperation, int)>, variables: map<string, Value>)
    ensures var e := Expression(first, rest);
            MathsPrefix(e, |e|, variables)
            == match LeftNested(first, rest)
               case Ok(v) => Ok(Some(Accumulator(v, LastOperation(rest))))
               case Fault(msg) => Fault(msg)
    decreases |rest|
  {
    if rest != [] {
      var init := rest[..|rest| - 1];
      var last := rest[|rest| - 1];
      var e0 := Expression(first, init);
      var e := Expression(first, rest);
      assert e == e0 + [Token.Maths(last.0), Token.Number(last.1)];
      FoldIsLeftNested(first, init, variables);
      PrefixOfLonger(e0, [Token.Maths(last.0), Token.Number(last.1)], |e0|, variables);
      assert e[|e0|] == Token.Maths(last.0);
      assert e[|e0| + 1] == Token.Number(last.1);
      assert MathsPrefix(e, |e|, variables) == match MathsPrefix(e, |e0| + 1, variables)
        case Fault(msg) => Fault(msg)
        case Ok(None) => Ok(None)
        case Ok(Some(acc)) => MathsToken(e[|e0| + 1], acc, variables);
    }
  }

  /** `execute_maths` on an alternating expression is its left-nested
      reading: no operator binds tighter than another. */
  lemma MathsIsLeftNested(first: int, rest: seq<(MathsOperation, int)>, variables: map<string, Value>)
    ensures EvalMaths(Expression(first, rest), variables)
            == match LeftNested(first, rest)
               case Ok(v) => Ok(Some(Value.Number(v)))
               case Fault(msg) => Fault(msg)
  {
    FoldIsLeftNested(first, rest, variables);
  }

  /** One more token of the loop. */
  lemma MathsPrefixStep(values: seq<Token>, k: nat, acc: Accumulator, variables: map<string, Value>)
    requires k < |values| && MathsPrefix(values, k, variables) == Ok(Some(acc))
    ensures MathsPrefix(values, k + 1, variables) == MathsToken(values[k], acc, variables)
  {
  }

  /** `5 - 2 - 1` is `(5 - 2) - 1`. */
  lemma FiveMinusTwoMinusOne(variables: map<string, Value>)
    ensures EvalMaths([Token.Number(5), Token.Maths(Minus), Token.Number(2), Token.Maths(Minus), Token.Number(1)], variables)
            == Ok(Some(Value.Number(2)))
  {
    var rest := [(Minus, 2), (Minus, 1)];
    assert rest[..1] == [(Minus, 2)] && [(Minus, 2)][..0] == [];
    assert Expression(5, [(Minus, 2)]) == [Token.Number(5), Token.Maths(Minus), Token.Number(2)];
    assert Expression(5, rest) == [Token.Number(5), Token.Maths(Minus), Token.Number(2), Token.Maths(Minus), Token.Number(1)];
    assert LeftNested(5, [(Minus, 2)]) == Ok(3);
    assert LeftNested(5, rest) == Ok(2);
    MathsIsLeftNested(5, rest, variables);
  }

  /** `2 + 3 * 4` is `(2 + 3) * 4`. */
  lemma NoPrecedence(variables: map<string, Value>)
    ensures EvalMaths([Token.Number(2), Token.Maths(Plus), Token.Number(3), Token.Maths(Multiply), Token.Number(4)], variables)
            == Ok(Some(Value.Number(20)))
  {
    var rest := [(Plus, 3), (Multiply, 4)];
    assert rest[..1] == [(Plus, 3)] && [(Plus, 3)][..0] == [];
    assert Expression(2, [(Plus, 3)]) == [Token.Number(2), Token.Maths(Plus), Token.Number(3)];
    assert Expression(2, rest) == [Token.Number(2), Token.Maths(Plus), Token.Number(3), Token.Maths(Multiply), Token.Number(4)];
    assert LeftNested(2, [(Plus, 3)]) == Ok(5);
    assert LeftNested(2, rest) == Ok(20);
    MathsIsLeftNested(2, rest, variables);
  }

  /** A lone operand is its own value: it is added to the initial 0. */
  lemma SingleOperand(n: int, x: string, variables: map<string, Value>)
    ensures EvalMaths([Token.Number(n)], variables) == Ok(Some(Value.Number(n)))
    ensures Lookup(variables, x) == Some(Value.Number(n)) ==>
              EvalMaths([Token.Identifier(x)], variables) == Ok(Some(Value.Number(n)))
  {
    MathsPrefixStep([Token.Number(n)], 0, Accumulator(0, Plus), variables);
    MathsPrefixStep([Token.Identifier(x)], 0, Accumulator(0, Plus), variables);
  }

  /** Two operands in a row: the second is combined by the operator still
      pending, so `a b` is `a + b` and `5 - 2 1` is `5 - 2 - 1`. */
  lemma OperandsInARow(a: int, b: int, variables: map<string, Value>)
    ensures EvalMaths([Token.Number(a), Token.Number(b)], variables) == Ok(Some(Value.Number(a + b)))
    ensures EvalMaths([Token.Number(5), Token.Maths(Minus), Token.Number(2), Token.Number(1)], variables)
            == Ok(Some(Value.Number(2)))
  {
    var vs := [Token.Number(a), Token.Number(b)];
    MathsPrefixStep(vs, 0, Accumulator(0, Plus), variables);
    MathsPrefixStep(vs, 1, Accumulator(a, Plus), variables);
    var ws := [Token.Number(5), Token.Maths(Minus), Token.Number(2), Token.Number(1)];
    MathsPrefixStep(ws, 0, Accumulator(0, Plus), variables);
    MathsPrefixStep(ws, 1, Accumulator(5, Plus), variables);
    MathsPrefixStep(ws, 2, Accumulator(5, Minus), variables);
    MathsPrefixStep(ws, 3, Accumulator(3, Minus), variables);
  }

  /** An identifier that is not bound ends the evaluation with no value,
      whatever follows it. */
  lemma UnboundOperandGivesNothing(values: seq<Token>, k: nat, variables: map<string, Value>)
    requires k < |values| && values[k].Identifier? && values[k].name !in variables
    requires MathsPrefix(values, k, variables).Ok? && MathsPrefix(values, k, variables).value.Some?
    ensures EvalMaths(values, variables) == Ok(None)
  {
    PrefixStops(values, k + 1, |values|, variables);
  }

  /** An identifier bound to anything but a number panics. */
  lemma NonNumberOperandPanics(values: seq<Token>, k: nat, variables: map<string, Value>)
    requires k < |values| && values[k].Identifier? && values[k].name in variables
    requires !variables[values[k].name].Number?
    requires MathsPrefix(values, k, variables).Ok? && MathsPrefix(values, k, variables).value.Some?
    ensures EvalMaths(values, variables) == Fault("Operand should be number")
  {
    PrefixStops(values, k + 1, |values|, variables);
  }

  /** A token that is neither an operand nor an operator panics. */
  lemma InvalidTokenPanics(values: seq<Token>, k: nat, variables: map<string, Value>)
    requires k < |values| && !values[k].Number? && !values[k].Identifier? && !values[k].Maths?
    requires MathsPrefix(values, k, variables).Ok? && MathsPrefix(values, k, variables).value.Some?
    ensures EvalMaths(values, variables) == Fault("Invalid operation")
  {
    PrefixStops(values, k + 1, |values|, variables);
  }

  /** Dividing, or taking the remainder, by a zero operand panics. */
  lemma ZeroDivisorPanics(values: seq<Token>, k: nat, variables: map<string, Value>)
    requires k < |values| && values[k] == Token.Number(0)
    requires MathsPrefix(values, k, variables).Ok? && MathsPrefix(values, k, variables).value.Some?
    requires MathsPrefix(values, k, variables).value.value.operation in {Division, Mod}
    ensures EvalMaths(values, variables).Fault?
  {
    PrefixStops(values, k + 1, |values|, variables);
  }

  // ---------------------------------------------------------------------
  // Ingredient, plate and recipe.

  /** `ingredient` changes the binding of its name and nothing else, and
      prints nothing. A single token becomes the matching value. */
  lemma IngredientFrame(x: string, values: seq<Token>, m: Machine)
    ensures var o := IngredientStep(x, values, m);
            && o.machine.output == m.output
            && (forall y :: y != x ==> Lookup(o.machine.variables, y) == Lookup(m.variables, y))
            && (o.status.Completed? <==> IngredientValue(x, values, m.variables).Ok?)
            && (IngredientValue(x, values, m.variables).Ok? && IngredientValue(x, values, m.variables).value.Some? ==>
                  Lookup(o.machine.variables, x) == IngredientValue(x, values, m.variables).value)
            && (IngredientValue(x, values, m.variables) == Ok(None) ==> o.machine == m)
  {
  }

  /** A single value token binds the value it denotes; more than one token
      binds the maths result. */
  lemma IngredientValues(x: string, t: Token, values: seq<Token>, variables: map<string, Value>)
    ensures t.Number? ==> IngredientValue(x, [t], variables) == Ok(Some(Value.Number(t.number)))
    ensures t.StringLiteral? ==> IngredientValue(x, [t], variables) == Ok(Some(Value.String(t.text)))
    ensures t.ArrayNumber? ==> IngredientValue(x, [t], variables) == Ok(Some(Value.ArrayNumber(t.numbers)))
    ensures t.ArrayString? ==> IngredientValue(x, [t], variables) == Ok(Some(Value.ArrayString(t.strings)))
    ensures !(t.Number? || t.StringLiteral? || t.ArrayNumber? || t.ArrayString?) ==> IngredientValue(x, [t], variables).Fault?
    ensures |values| > 1 ==> IngredientValue(x, values, variables) == EvalMaths(values, variables)
    ensures IngredientValue(x, [], variables).Fault?
  {
  }

  /** `plate` leaves the bindings alone. It prints exactly one value for a
      literal or a bound identifier, nothing for an unbound identifier, and
      panics on every other token. */
  lemma PlateEmits(t: Token, m: Machine)
    ensures var o := PlateStep(t, m);
            && o.machine.variables == m.variables
            && (o.status.Panicked? <==> !(t.Identifier? || t.StringLiteral? || t.Number? || t.ArrayNumber? || t.ArrayString?))
            && o.machine.output[..|m.output|] == m.output
            && |o.machine.output| == |m.output| + (if o.status.Panicked? || (t.Identifier? && t.name !in m.variables) then 0 else 1)
            && (t.Identifier? && t.name in m.variables ==> o.machine.output == m.output + [m.variables[t.name]])
  {
    PlatePanics(t, m);
    PlatePrints(t, m);
  }

  /** `plate` panics exactly on a token that is neither a name nor a
      literal. */
  lemma PlatePanics(t: Token, m: Machine)
    ensures PlateStep(t, m).status.Panicked?
            <==> !(t.Identifier? || t.StringLiteral? || t.Number? || t.ArrayNumber? || t.ArrayString?)
  {
    PlateValueFaults(t, m.variables);
  }

  /** The value `plate` selects is a panic exactly for a token that is
      neither a name nor a literal. */
  lemma PlateValueFaults(t: Token, variables: map<string, Value>)
    ensures PlateValue(t, variables).Fault?
            <==> !(t.Identifier? || t.StringLiteral? || t.Number? || t.ArrayNumber? || t.ArrayString?)
  {
  }

  /** What `plate` prints: the value of a bound name or the literal, one
      value; nothing for an unbound name or a panic. Bindings stay. */
  lemma PlatePrints(t: Token, m: Machine)
    ensures var o := PlateStep(t, m);
            && o.machine.variables == m.variables
            && (o.machine.output == m.output || o.machine.output == m.output + [PlateValue(t, m.variables).value.value])
            && (o.machine.output != m.output <==> PlateValue(t, m.variables).Ok? && PlateValue(t, m.variables).value.Some?)
            && (t.Identifier? ==> PlateValue(t, m.variables) == Ok(Lookup(m.variables, t.name)))
  {
    var v := PlateValue(t, m.variables);
    if v.Ok? && v.value.Some? {
      assert m.output + [v.value.value] != m.output by {
        assert |m.output + [v.value.value]| == |m.output| + 1;
      }
    }
  }
  /** `recipe` binds its name to the function value of its parameters and
      body. */
  lemma RecipeBinds(x: string, params: seq<string>, body: seq<ExecCommand>, m: Machine, fuel: nat)
    ensures Run([ExecCommand.Recipe(x, params, body)], 0, m, fuel)
            == Outcome(Completed, Machine(m.variables[x := Value.Function(params, body)], m.output))
  {
  }

  // ---------------------------------------------------------------------
  // execute runs commands in order.

  /** What follows a run: the next commands when it completed, the run's
      own outcome otherwise. */
  function AndThen(o: Outcome, next: seq<ExecCommand>, fuel: nat): Outcome {
    if o.status.Completed? then Run(next, 0, o.machine, fuel) else o
  }

  lemma {:induction false} RunShift(first: seq<ExecCommand>, next: seq<ExecCommand>, j: nat, m: Machine, fuel: nat)
    requires j <= |next|
    ensures Run(first + next, |first| + j, m, fuel) == Run(next, j, m, fuel)
    decreases |next| - j
  {
    if j < |next| {
      assert (first + next)[|first| + j] == next[j];
      var o := Step(next[j], m, fuel);
      if o.status.Completed? {
        RunShift(first, next, j + 1, o.machine, fuel);
      }
    }
  }

  lemma {:induction false} RunConcatFrom(first: seq<ExecCommand>, next: seq<ExecCommand>, i: nat, m: Machine, fuel: nat)
    requires i <= |first|
    ensures Run(first + next, i, m, fuel) == AndThen(Run(first, i, m, fuel), next, fuel)
    decreases |first| - i
  {
    if i == |first| {
      RunShift(first, next, 0, m, fuel);
    } else {
      assert (first + next)[i] == first[i];
      var o := Step(first[i], m, fuel);
      if o.status.Completed? {
        RunConcatFrom(first, next, i + 1, o.machine, fuel);
      }
    }
  }

  /** Running two command lists one after the other is running the first
      and, only when it completes, the second from where it left off. */
  lemma RunConcat(first: seq<ExecCommand>, next: seq<ExecCommand>, m: Machine, fuel: nat)
    ensures Run(first + next, 0, m, fuel) == AndThen(Run(first, 0, m, fuel), next, fuel)
  {
    RunConcatFrom(first, next, 0, m, fuel);
  }

  /** A command the interpreter does not handle panics, and nothing after
      it runs. */
  lemma InvalidCommandPanics(rest: seq<ExecCommand>, m: Machine, fuel: nat)
    ensures Run([ExecCommand.Other] + rest, 0, m, fuel) == Outcome(Panicked("Invalid command"), m)
  {
  }

  // ---------------------------------------------------------------------
  // layer loops.

  /** The loop ends at once, with nothing changed, when the condition is
      false or an operand is unbound; it panics on a non-number operand or
      a token that is no comparison. */
  lemma LayerStops(left: Token, right: Token, comparison: Token, body: seq<ExecCommand>, m: Machine, fuel: nat)
    ensures var c := Condition(left, right, comparison, m.variables);
            (c == Ok(Some(false)) || c == Ok(None)) ==>
              LayerLoop(left, right, comparison, body, m, fuel) == Outcome(Completed, m)
    ensures left.Identifier? && left.name !in m.variables ==>
              LayerLoop(left, right, comparison, body, m, fuel) == Outcome(Completed, m)
    ensures !left.Number? && !left.Identifier? ==>
              LayerLoop(left, right, comparison, body, m, fuel) == Outcome(Panicked(LayerOperandMessage), m)
    ensures left.Number? && right.Number? && !IsComparison(comparison) ==>
              LayerLoop(left, right, comparison, body, m, fuel).status.Panicked?
  {
  }

  function Repeat(v: Value, n: nat): (r: seq<Value>)
    ensures |r| == n
  {
    seq(n, i => v)
  }

  /** `layer a cooler 3 { plate a }` with `a` bound to 0: the body never
      changes `a`, so the loop prints 0 once per unit of fuel and never
      ends. */
  lemma {:induction false} LayerWithoutProgress(m: Machine, fuel: nat)
    requires Lookup(m.variables, "a") == Some(Value.Number(0))
    ensures LayerLoop(Token.Identifier("a"), Token.Number(3), Token.Cooler, [ExecCommand.Plate(Token.Identifier("a"))], m, fuel)
            == Outcome(OutOfFuel, Machine(m.variables, m.output + Repeat(Value.Number(0), fuel)))
    decreases fuel
  {
    if fuel > 0 {
      var body := [ExecCommand.Plate(Token.Identifier("a"))];
      var m' := Machine(m.variables, m.output + [Value.Number(0)]);
      assert Condition(Token.Identifier("a"), Token.Number(3), Token.Cooler, m.variables) == Ok(Some(true));
      assert Step(body[0], m, fuel - 1) == Outcome(Completed, m');
      assert Run(body, 0, m, fuel - 1) == Outcome(Completed, m');
      LayerWithoutProgress(m', fuel - 1);
      assert m'.output + Repeat(Value.Number(0), fuel - 1) == m.output + Repeat(Value.Number(0), fuel);
    }
  }

  /** `ingredient a is a + 1`. */
  const Increment: ExecCommand :=
    ExecCommand.Ingredient("a", [Token.Identifier("a"), Token.Maths(Plus), Token.Number(1)])

  /** One run of the body `ingredient a is a + 1`. */
  lemma IncrementRuns(m: Machine, k: int, fuel: nat)
    requires Lookup(m.variables, "a") == Some(Value.Number(k))
    ensures Run([Increment], 0, m, fuel) == Outcome(Completed, Machine(m.variables["a" := Value.Number(k + 1)], m.output))
  {
    var vs := Increment.values;
    MathsPrefixStep(vs, 0, Accumulator(0, Plus), m.variables);
    MathsPrefixStep(vs, 1, Accumulator(k, Plus), m.variables);
    MathsPrefixStep(vs, 2, Accumulator(k, Plus), m.variables);
    assert EvalMaths(vs, m.variables) == Ok(Some(Value.Number(k + 1)));
    assert Step(Increment, m, fuel) == Outcome(Completed, Machine(m.variables["a" := Value.Number(k + 1)], m.output));
  }

  /** `layer a cooler limit { ingredient a is a + 1 }` from `a` = k: the
      operand is read again on every iteration, so the loop ends with `a`
      equal to the limit once it has had limit - k iterations. */
  lemma {:induction false} LayerCountsUp(m: Machine, k: int, limit: int, fuel: nat)
    requires Lookup(m.variables, "a") == Some(Value.Number(k)) && k <= limit && limit - k <= fuel
    ensures LayerLoop(Token.Identifier("a"), Token.Number(limit), Token.Cooler, [Increment], m, fuel)
            == Outcome(Completed, Machine(m.variables["a" := Value.Number(limit)], m.output))
    decreases limit - k
  {
    if k == limit {
      assert m.variables["a" := Value.Number(limit)] == m.variables;
    } else {
      var m' := Machine(m.variables["a" := Value.Number(k + 1)], m.output);
      assert Condition(Token.Identifier("a"), Token.Number(limit), Token.Cooler, m.variables) == Ok(Some(true));
      IncrementRuns(m, k, fuel - 1);
      LayerCountsUp(m', k + 1, limit, fuel - 1);
      assert m'.variables["a" := Value.Number(limit)] == m.variables["a" := Value.Number(limit)];
    }
  }

  // ---------------------------------------------------------------------
  // simmer loops.

  /** Whether a command can bind `x`, directly or in a nested body. */
  predicate Binds(c: ExecCommand, x: string)
    decreases c
  {
    match c
    case Ingredient(y, _) => y == x
    case Recipe(y, _, _) => y == x
    case Simmer(y, _, body) => y == x || BindsIn(body, x)
    case Layer(_, _, _, body) => BindsIn(body, x)
    case _ => false
  }

  predicate BindsIn(commands: seq<ExecCommand>, x: string)
    decreases commands
  {
    exists i :: 0 <= i < |commands| && Binds(commands[i], x)
  }

  // Commands that never bind `x` leave its binding as it was, however
  // they end.

  lemma {:induction false} RunKeeps(commands: seq<ExecCommand>, i: nat, m: Machine, fuel: nat, x: string)
    requires i <= |commands| && !BindsIn(commands, x)
    ensures Lookup(Run(commands, i, m, fuel).machine.variables, x) == Lookup(m.variables, x)
    decreases fuel, commands, 0, |commands| - i
  {
    if i < |commands| {
      assert !Binds(commands[i], x);
      StepKeeps(commands[i], m, fuel, x);
      var o := Step(commands[i], m, fuel);
      if o.status.Completed? {
        RunKeeps(commands, i + 1, o.machine, fuel, x);
      }
    }
  }

  lemma {:induction false} StepKeeps(c: ExecCommand, m: Machine, fuel: nat, x: string)
    requires !Binds(c, x)
    ensures Lookup(Step(c, m, fuel).machine.variables, x) == Lookup(m.variables, x)
    decreases fuel, c, 0, 0
  {
    match c
    case Layer(left, right, comparison, body) => LayerKeeps(left, right, comparison, body, m, fuel, x);
    case Simmer(y, a, body) => SimmerStepKeeps(y, a, body, m, fuel, x);
    case _ =>
  }

  lemma {:induction false} LayerKeeps(left: Token, right: Token, comparison: Token, body: seq<ExecCommand>,
                                      m: Machine, fuel: nat, x: string)
    requires !BindsIn(body, x)
    ensures Lookup(LayerLoop(left, right, comparison, body, m, fuel).machine.variables, x) == Lookup(m.variables, x)
    decreases fuel, body, 1, 0
  {
    var cond := Condition(left, right, comparison, m.variables);
    if cond.Ok? && cond.value == Some(true) && fuel > 0 {
      RunKeeps(body, 0, m, fuel - 1, x);
      var o := Run(body, 0, m, fuel - 1);
      if o.status.Completed? {
        LayerKeeps(left, right, comparison, body, o.machine, fuel - 1, x);
      }
    }
  }

  lemma {:induction false} SimmerStepKeeps(y: string, a: string, body: seq<ExecCommand>, m: Machine, fuel: nat, x: string)
    requires y != x && !BindsIn(body, x)
    ensures Lookup(SimmerStep(y, a, body, m, fuel).machine.variables, x) == Lookup(m.variables, x)
    decreases fuel, body, 2, 0
  {
    if a in m.variables && (m.variables[a].ArrayNumber? || m.variables[a].ArrayString?) {
      SimmerLoopKeeps(y, Elements(m.variables[a]), 0, body, m, fuel, x);
    }
  }

  lemma {:induction false} SimmerLoopKeeps(y: string, elements: seq<Value>, i: nat, body: seq<ExecCommand>,
                                           m: Machine, fuel: nat, x: string)
    requires i <= |elements| && y != x && !BindsIn(body, x)
    ensures Lookup(SimmerLoop(y, elements, i, body, m, fuel).machine.variables, x) == Lookup(m.variables, x)
    decreases fuel, body, 1, |elements| - i
  {
    if i < |elements| {
      var bound := Machine(m.variables[y := elements[i]], m.output);
      RunKeeps(body, 0, bound, fuel, x);
      var o := Run(body, 0, bound, fuel);
      if o.status.Completed? {
        SimmerLoopKeeps(y, elements, i + 1, body, o.machine, fuel, x);
      }
    }
  }

  lemma {:induction false} SimmerLoopEndsOnLast(x: string, elements: seq<Value>, i: nat, body: seq<ExecCommand>,
                                                m: Machine, fuel: nat)
    requires i < |elements| && !BindsIn(body, x)
    requires SimmerLoop(x, elements, i, body, m, fuel).status.Completed?
    ensures Lookup(SimmerLoop(x, elements, i, body, m, fuel).machine.variables, x) == Some(elements[|elements| - 1])
    decreases |elements| - i
  {
    var bound := Machine(m.variables[x := elements[i]], m.output);
    RunKeeps(body, 0, bound, fuel, x);
    var o := Run(body, 0, bound, fuel);
    if i + 1 < |elements| {
      SimmerLoopEndsOnLast(x, elements, i + 1, body, o.machine, fuel);
    }
  }

  /** After a completed `simmer` over a non-empty array whose body never
      binds the loop variable, the variable holds the last element. */
  lemma SimmerLeavesLastElement(x: string, a: string, body: seq<ExecCommand>, m: Machine, fuel: nat)
    requires !BindsIn(body, x)
    requires a in m.variables && (m.variables[a].ArrayNumber? || m.variables[a].ArrayString?)
    requires |Elements(m.variables[a])| > 0
    requires SimmerStep(x, a, body, m, fuel).status.Completed?
    ensures var e := Elements(m.variables[a]);
            Lookup(SimmerStep(x, a, body, m, fuel).machine.variables, x) == Some(e[|e| - 1])
  {
    SimmerLoopEndsOnLast(x, Elements(m.variables[a]), 0, body, m, fuel);
  }

  /** The loop variable takes the array's elements as numbers or as
      strings, one per element, in order. */
  lemma ElementsOfArray(v: Value)
    requires v.ArrayNumber? || v.ArrayString?
    ensures v.ArrayNumber? ==> |Elements(v)| == |v.numbers| && forall i :: 0 <= i < |v.numbers| ==> Elements(v)[i] == Value.Number(v.numbers[i])
    ensures v.ArrayString? ==> |Elements(v)| == |v.strings| && forall i :: 0 <= i < |v.strings| ==> Elements(v)[i] == Value.String(v.strings[i])
  {
  }

  lemma {:induction false} PlateEachFrom(x: string, elements: seq<Value>, i: nat, m: Machine, fuel: nat)
    requires i <= |elements|
    ensures var o := SimmerLoop(x, elements, i, [ExecCommand.Plate(Token.Identifier(x))], m, fuel);
            && o.status == Completed && o.machine.output == m.output + elements[i..]
            && o.machine.variables == if i < |elements| then m.variables[x := elements[|elements| - 1]] else m.variables
    decreases |elements| - i
  {
    if i < |elements| {
      assert m.variables[x := elements[i]][x := elements[|elements| - 1]] == m.variables[x := elements[|elements| - 1]];
      var body := [ExecCommand.Plate(Token.Identifier(x))];
      var bound := Machine(m.variables[x := elements[i]], m.output);
      var m' := Machine(m.variables[x := elements[i]], m.output + [elements[i]]);
      assert Step(body[0], bound, fuel) == Outcome(Completed, m');
      assert Run(body, 0, bound, fuel) == Outcome(Completed, m');
      PlateEachFrom(x, elements, i + 1, m', fuel);
      assert m'.output + elements[i + 1..] == m.output + elements[i..];
    }
  }

  /** `simmer x in a { plate x }` prints every element of the array once,
      in order: the body runs once per element. */
  lemma SimmerPlatesEach(x: string, a: string, m: Machine, fuel: nat)
    requires a in m.variables && (m.variables[a].ArrayNumber? || m.variables[a].ArrayString?)
    ensures var o := SimmerStep(x, a, [ExecCommand.Plate(Token.Identifier(x))], m, fuel);
            var e := Elements(m.variables[a]);
            && o.status == Completed && o.machine.output == m.output + e
            && o.machine.variables == if |e| > 0 then m.variables[x := e[|e| - 1]] else m.variables
  {
    PlateEachFrom(x, Elements(m.variables[a]), 0, m, fuel);
    assert Elements(m.variables[a])[0..] == Elements(m.variables[a]);
  }

  /** An unbound array does nothing; a value that is no array panics. */
  lemma SimmerOnOtherValues(x: string, a: string, body: seq<ExecCommand>, m: Machine, fuel: nat)
    ensures a !in m.variables ==> SimmerStep(x, a, body, m, fuel) == Outcome(Completed, m)
    ensures a in m.variables && !(m.variables[a].ArrayNumber? || m.variables[a].ArrayString?) ==>
              SimmerStep(x, a, body, m, fuel) == Outcome(Panicked("for loop is not iteratable"), m)
  {
  }
}
