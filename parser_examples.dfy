/** The program of src/main.rs, lexed and parsed. */
module ParserExamples {
  import opened Wrappers
  import opened Tokens
  import opened Commands
  import opened Parsing
  import opened ParserProperties
  import Lexing
  import LexerExamples

  /** The commands the program parses to. */
  const ProgramCommands: seq<Command> := [
    Command.Ingredient("abc", Token.ArrayNumber([2, 3, 4])),
    Command.Plate(Token.Identifier("abc")),
    Command.Simmer("n", "abc", [Command.Plate(Token.Identifier("n"))])]

  lemma BodyParses()
    ensures ParseFrom([Token.Plate, Token.Identifier("n")], 0)
            == Ok(ParseRun([Command.Plate(Token.Identifier("n"))], 2))
  {
    var body := [Token.Plate, Token.Identifier("n")];
    assert CommandAt(body, 2) == Ok(Parsed(None, 2));
    assert [Command.Plate(Token.Identifier("n"))][1..] == [];
    ParseCons(body, 0, 2, [Command.Plate(Token.Identifier("n"))], 2);
  }

  lemma ProgramIngredientStep()
    ensures CommandAt(LexerExamples.ProgramTokens, 0) == Ok(Parsed(Some(ProgramCommands[0]), 4))
  {
  }

  lemma ProgramPlateStep()
    ensures CommandAt(LexerExamples.ProgramTokens, 4) == Ok(Parsed(Some(ProgramCommands[1]), 6))
  {
  }

  lemma ProgramSimmerStep()
    ensures CommandAt(LexerExamples.ProgramTokens, 6) == Ok(Parsed(Some(ProgramCommands[2]), 11))
  {
    BodyParses();
    SimmerShape(LexerExamples.ProgramTokens, 6);
  }

  /** Parsing the tokens of the program: an ingredient, a plate and a
      simmer loop whose body is one plate. */
  lemma ProgramParses()
    ensures Parse(LexerExamples.ProgramTokens) == Ok(ProgramCommands)
  {
    var ts := LexerExamples.ProgramTokens;
    var cs := ProgramCommands;
    ProgramIngredientStep();
    ProgramPlateStep();
    ProgramSimmerStep();
    assert ParseFrom(ts, 11) == Ok(ParseRun([], 11));
    assert cs[2..][1..] == [];
    ParseCons(ts, 6, 11, cs[2..], 11);
    ParseCons(ts, 4, 6, cs[1..], 11);
    ParseCons(ts, 0, 4, cs[0..], 11);
    assert cs[0..] == cs;
  }

  /** The program of src/main.rs from text to commands. */
  lemma ProgramFromText()
    ensures Lexing.Lex(LexerExamples.Program) == Ok(LexerExamples.ProgramTokens)
    ensures Parse(LexerExamples.ProgramTokens) == Ok(ProgramCommands)
  {
    LexerExamples.ProgramLexes();
    ProgramParses();
  }
}
