/** Whole programs run through the interpreter functions. */
module InterpreterExamples {
  import opened Tokens
  import opened ExecCommands
  import opened Store
  import opened Interpreting
  import opened InterpreterProperties

  /** The program of src/main.rs in the command shape the interpreter
      reads: `ingredient abc is [2,3,4]`, `plate abc`,
      `simmer n in abc { plate n }`. */
  const MainProgram: seq<ExecCommand> := [
    ExecCommand.Ingredient("abc", [Token.ArrayNumber([2, 3, 4])]),
    ExecCommand.Plate(Token.Identifier("abc")),
    ExecCommand.Simmer("n", "abc", [ExecCommand.Plate(Token.Identifier("n"))])]

  /** It prints the numbers and then each element, and leaves `n` bound to
      the last element; no layer loop runs, so any fuel will do. */
  lemma MainProgramRuns(fuel: nat)
    ensures Run(MainProgram, 0, Machine(map[], []), fuel)
            == Outcome(Completed, Machine(map["abc" := Value.ArrayNumber([2, 3, 4]), "n" := Value.Number(4)],
                                          [Value.ArrayNumber([2, 3, 4]), Value.Number(2), Value.Number(3), Value.Number(4)]))
  {
    var numbers := Value.ArrayNumber([2, 3, 4]);
    var m1 := Machine(map["abc" := numbers], []);
    var m2 := Machine(m1.variables, [numbers]);
    assert Step(MainProgram[0], Machine(map[], []), fuel) == Outcome(Completed, m1);
    assert Step(MainProgram[1], m1, fuel) == Outcome(Completed, m2);
    SimmerPlatesEach("n", "abc", m2, fuel);
    var e := Elements(numbers);
    assert e == [Value.Number(2), Value.Number(3), Value.Number(4)];
    var m3 := Machine(m2.variables["n" := Value.Number(4)], [numbers] + e);
    assert Step(MainProgram[2], m2, fuel) == Outcome(Completed, m3);
    assert Run(MainProgram, 2, m2, fuel) == Outcome(Completed, m3);
    assert Run(MainProgram, 1, m1, fuel) == Outcome(Completed, m3);
    assert m3.variables == map["abc" := numbers, "n" := Value.Number(4)];
  }

  /** `ingredient a is 0` then `layer a cooler 3 { plate a }`: with any
      amount of fuel the run prints 0 once per unit and is still looping
      when the fuel ends; it never completes. */
  lemma LayerProgramNeverEnds(fuel: nat)
    ensures var program := [
              ExecCommand.Ingredient("a", [Token.Number(0)]),
              ExecCommand.Layer(Token.Identifier("a"), Token.Number(3), Token.Cooler, [ExecCommand.Plate(Token.Identifier("a"))])];
            Run(program, 0, Machine(map[], []), fuel)
            == Outcome(OutOfFuel, Machine(map["a" := Value.Number(0)], Repeat(Value.Number(0), fuel)))
  {
    var body := [ExecCommand.Plate(Token.Identifier("a"))];
    var program := [
      ExecCommand.Ingredient("a", [Token.Number(0)]),
      ExecCommand.Layer(Token.Identifier("a"), Token.Number(3), Token.Cooler, body)];
    var m1 := Machine(map["a" := Value.Number(0)], []);
    assert Step(program[0], Machine(map[], []), fuel) == Outcome(Completed, m1);
    LayerWithoutProgress(m1, fuel);
    assert [] + Repeat(Value.Number(0), fuel) == Repeat(Value.Number(0), fuel);
    assert Step(program[1], m1, fuel) == Outcome(OutOfFuel, Machine(m1.variables, Repeat(Value.Number(0), fuel)));
  }

  /** `ingredient x is 5` then `simmer n in x { }`: iterating a number
      panics before anything is printed. */
  lemma SimmerOverNumberPanics(fuel: nat)
    ensures Run([ExecCommand.Ingredient("x", [Token.Number(5)]), ExecCommand.Simmer("n", "x", [])], 0, Machine(map[], []), fuel)
            == Outcome(Panicked("for loop is not iteratable"), Machine(map["x" := Value.Number(5)], []))
  {
    var program := [ExecCommand.Ingredient("x", [Token.Number(5)]), ExecCommand.Simmer("n", "x", [])];
    var m1 := Machine(map["x" := Value.Number(5)], []);
    assert Step(program[0], Machine(map[], []), fuel) == Outcome(Completed, m1);
    SimmerOnOtherValues("n", "x", [], m1, fuel);
    assert Step(program[1], m1, fuel) == Outcome(Panicked("for loop is not iteratable"), m1);
  }

  /** Plating an unbound name prints nothing and carries on. */
  lemma PlateUnboundPrintsNothing(fuel: nat)
    ensures Run([ExecCommand.Plate(Token.Identifier("missing")), ExecCommand.Plate(Token.Number(1))], 0, Machine(map[], []), fuel)
            == Outcome(Completed, Machine(map[], [Value.Number(1)]))
  {
    var program := [ExecCommand.Plate(Token.Identifier("missing")), ExecCommand.Plate(Token.Number(1))];
    var m := Machine(map[], []);
    assert Step(program[0], m, fuel) == Outcome(Completed, m);
    assert Step(program[1], m, fuel) == Outcome(Completed, Machine(map[], [] + [Value.Number(1)]));
    assert [] + [Value.Number(1)] == [Value.Number(1)];
    assert Run(program, 1, m, fuel) == Outcome(Completed, Machine(map[], [Value.Number(1)]));
  }
}
