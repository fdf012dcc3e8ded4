/** Concrete inputs run through the lexer functions: the edge cases of
    keyword recognition and number arrays, and the program of src/main.rs. */
module LexerExamples {
  import opened Wrappers
  import opened Tokens
  import opened Lexing
  import opened LexerProperties

  lemma PlateFirstStep()
    ensures NextTokenAt("plate1", 0) == Ok(Step(Some(Token.Plate), 5))
  {
    KeywordStep("plate1", 0, 9);
  }

  lemma PlateNumberStep()
    ensures NextTokenAt("plate1", 5) == Ok(Step(Some(Token.Number(1)), 6))
  {
    var input := "plate1";
    NoKeywordAt(input, 5);
    NumberIsMaximalDigitRun(input, 5, 6);
    assert DecimalValue(input[5..6]) == 1;
  }

  /** A keyword followed by a digit is still read as the keyword. */
  lemma PlateThenNumber()
    ensures Lex("plate1") == Ok([Token.Plate, Token.Number(1)])
  {
    PlateNumberStep();
    LexAtEnd("plate1");
    assert [Token.Number(1)][1..] == [];
    LexCons("plate1", 5, 6, [Token.Number(1)]);
    PlateFirstStep();
    assert [Token.Plate, Token.Number(1)][1..] == [Token.Number(1)];
    LexCons("plate1", 0, 5, [Token.Plate, Token.Number(1)]);
  }

  lemma TasteFirstStep()
    ensures NextTokenAt("taste_again", 0) == Ok(Step(Some(Token.Taste), 5))
  {
    KeywordStep("taste_again", 0, 1);
  }

  /** `taste_again` is `taste`, and the scan ends at the underscore. */
  lemma TasteAgainStopsAtUnderscore()
    ensures Lex("taste_again") == Ok([Token.Taste])
  {
    var input := "taste_again";
    NoKeywordAt(input, 5);
    assert LexFrom(input, 5) == Ok([]);
    TasteFirstStep();
    assert [Token.Taste][1..] == [];
    LexCons(input, 0, 5, [Token.Taste]);
  }

  lemma IndexStep()
    ensures NextTokenAt("index ", 0) == Ok(Step(Some(Token.Identifier("index")), 6))
  {
    var input := "index ";
    RunEndIsMaximalRun(input, 0, IsAlphabetic, 5);
    assert input[0..5] == "index";
    NotAKeyword(input, 0);
    IdentifierIsMaximalAlphanumericRun(input, 0, 5);
  }

  /** `index` begins with `in` but is an identifier; the space after it is
      consumed with it. */
  lemma IndexIsIdentifier()
    ensures Lex("index ") == Ok([Token.Identifier("index")])
  {
    IndexStep();
    LexAtEnd("index ");
    assert [Token.Identifier("index")][1..] == [];
    LexCons("index ", 0, 6, [Token.Identifier("index")]);
  }

  /** A keyword at the very end of the input reads past it. */
  lemma KeywordAtEndOfInputFaults()
    ensures Lex("plate").Fault?
  {
    var input := "plate";
    RunEndIsMaximalRun(input, 0, IsAlphabetic, 5);
    KeywordRunAtEndFaults(input, 0, 9);
  }

  lemma ThreeDigitStep()
    ensures NextTokenAt("[2,3,4]", 0) == Ok(Step(Some(Token.ArrayNumber([2, 3, 4])), 7))
  {
    var input := "[2,3,4]";
    FindIsFirst(input, 0, ']', 6);
    NumberArrayRunsToBracket(input, 0);
    assert DigitElements(input, 0, 2) == [2];
    assert DigitElements(input, 0, 4) == [2, 3];
    assert DigitElements(input, 0, 6) == [2, 3, 4];
  }

  lemma ThreeDigitArray()
    ensures Lex("[2,3,4]") == Ok([Token.ArrayNumber([2, 3, 4])])
  {
    ThreeDigitStep();
    LexAtEnd("[2,3,4]");
    assert [Token.ArrayNumber([2, 3, 4])][1..] == [];
    LexCons("[2,3,4]", 0, 7, [Token.ArrayNumber([2, 3, 4])]);
  }

  lemma TwoDigitStep()
    ensures NextTokenAt("[12]", 0) == Ok(Step(Some(Token.ArrayNumber([1, 2])), 4))
  {
    var input := "[12]";
    FindIsFirst(input, 0, ']', 3);
    NumberArrayRunsToBracket(input, 0);
    assert DigitElements(input, 0, 2) == [1];
    assert DigitElements(input, 0, 3) == [1, 2];
  }

  /** Each digit of `12` is an element of its own. */
  lemma TwoDigitNumberIsTwoElements()
    ensures Lex("[12]") == Ok([Token.ArrayNumber([1, 2])])
  {
    TwoDigitStep();
    LexAtEnd("[12]");
    assert [Token.ArrayNumber([1, 2])][1..] == [];
    LexCons("[12]", 0, 4, [Token.ArrayNumber([1, 2])]);
  }

  /** The program of src/main.rs, written in pieces so that each character
      is reached quickly. */
  const Program: string :=
    "ingredient abc " + "is [2,3,4] " + "plate abc " + "simmer n " + "in abc " + "{ plate n }"

  /** The tokens it lexes to. */
  const ProgramTokens: seq<Token> := [
    Token.Ingredient, Token.Identifier("abc"), Token.Is, Token.ArrayNumber([2, 3, 4]),
    Token.Plate, Token.Identifier("abc"), Token.Simmer, Token.Identifier("n"), Token.In,
    Token.Identifier("abc"), Token.Block([Token.Plate, Token.Identifier("n")])]

  lemma BodyPlateStep()
    ensures NextTokenAt(" plate n ", 1) == Ok(Step(Some(Token.Plate), 6))
  {
    KeywordStep(" plate n ", 1, 9);
  }

  lemma BodyNameStep()
    ensures NextTokenAt(" plate n ", 7) == Ok(Step(Some(Token.Identifier("n")), 9))
  {
    IdentifierStep(" plate n ", 7, 8);
    assert " plate n "[7..8] == "n";
  }

  lemma BodyTail()
    ensures LexFrom(" plate n ", 6) == Ok([Token.Identifier("n")])
  {
    var body := " plate n ";
    LexSkipsSpace(body, 6);
    BodyNameStep();
    LexAtEnd(body);
    assert [Token.Identifier("n")][1..] == [];
    LexCons(body, 7, 9, [Token.Identifier("n")]);
  }

  /** The text of the loop body, between the braces. */
  lemma BodyLexes()
    ensures Lex(" plate n ") == Ok([Token.Plate, Token.Identifier("n")])
  {
    var body := " plate n ";
    LexSkipsSpace(body, 0);
    BodyPlateStep();
    BodyTail();
    assert [Token.Plate, Token.Identifier("n")][1..] == [Token.Identifier("n")];
    LexCons(body, 1, 6, [Token.Plate, Token.Identifier("n")]);
  }

  lemma ProgramBlockStep()
    ensures NextTokenAt(Program, 52) == Ok(Step(Some(ProgramTokens[10]), 63))
  {
    FindIsFirst(Program, 53, '}', 62);
    assert BlockText(Program, 52) == " plate n ";
    BodyLexes();
    BlockIsLexOfBracedText(Program, 52);
  }

  lemma ProgramStep0()
    ensures NextTokenAt(Program, 0) == Ok(Step(Some(ProgramTokens[0]), 10))
  {
    KeywordStep(Program, 0, 0);
  }

  lemma ProgramStep15()
    ensures NextTokenAt(Program, 15) == Ok(Step(Some(ProgramTokens[2]), 17))
  {
    KeywordStep(Program, 15, 15);
  }

  lemma ProgramStep26()
    ensures NextTokenAt(Program, 26) == Ok(Step(Some(ProgramTokens[4]), 31))
  {
    KeywordStep(Program, 26, 9);
  }

  lemma ProgramStep36()
    ensures NextTokenAt(Program, 36) == Ok(Step(Some(ProgramTokens[6]), 42))
  {
    KeywordStep(Program, 36, 5);
  }

  lemma ProgramStep45()
    ensures NextTokenAt(Program, 45) == Ok(Step(Some(ProgramTokens[8]), 47))
  {
    KeywordStep(Program, 45, 16);
  }

  lemma ProgramStep11()
    ensures NextTokenAt(Program, 11) == Ok(Step(Some(ProgramTokens[1]), 15))
  {
    IdentifierStep(Program, 11, 14);
    assert Program[11..14] == "abc";
  }

  lemma ProgramStep32()
    ensures NextTokenAt(Program, 32) == Ok(Step(Some(ProgramTokens[5]), 36))
  {
    IdentifierStep(Program, 32, 35);
    assert Program[32..35] == "abc";
  }

  lemma ProgramStep43()
    ensures NextTokenAt(Program, 43) == Ok(Step(Some(ProgramTokens[7]), 45))
  {
    IdentifierStep(Program, 43, 44);
    assert Program[43..44] == "n";
  }

  lemma ProgramStep48()
    ensures NextTokenAt(Program, 48) == Ok(Step(Some(ProgramTokens[9]), 52))
  {
    IdentifierStep(Program, 48, 51);
    assert Program[48..51] == "abc";
  }

  lemma ProgramStep18()
    ensures NextTokenAt(Program, 18) == Ok(Step(Some(ProgramTokens[3]), 25))
  {
    FindIsFirst(Program, 18, ']', 24);
    NumberArrayRunsToBracket(Program, 18);
    assert DigitElements(Program, 18, 20) == [2];
    assert DigitElements(Program, 18, 22) == [2, 3];
    assert DigitElements(Program, 18, 24) == [2, 3, 4];
  }

  lemma ProgramSpace10()
    ensures LexFrom(Program, 10) == LexFrom(Program, 11)
  {
    LexSkipsSpace(Program, 10);
  }

  lemma ProgramSpace17()
    ensures LexFrom(Program, 17) == LexFrom(Program, 18)
  {
    LexSkipsSpace(Program, 17);
  }

  lemma ProgramSpace25()
    ensures LexFrom(Program, 25) == LexFrom(Program, 26)
  {
    LexSkipsSpace(Program, 25);
  }

  lemma ProgramSpace31()
    ensures LexFrom(Program, 31) == LexFrom(Program, 32)
  {
    LexSkipsSpace(Program, 31);
  }

  lemma ProgramSpace42()
    ensures LexFrom(Program, 42) == LexFrom(Program, 43)
  {
    LexSkipsSpace(Program, 42);
  }

  lemma ProgramSpace47()
    ensures LexFrom(Program, 47) == LexFrom(Program, 48)
  {
    LexSkipsSpace(Program, 47);
  }

  lemma ProgramTail()
    ensures LexFrom(Program, 36) == Ok(ProgramTokens[6..])
  {
    var ts := ProgramTokens;
    ProgramBlockStep();
    LexAtEnd(Program);
    assert |Program| == 63 && ts[10..][1..] == [];
    LexCons(Program, 52, 63, ts[10..]);
    ProgramStep48();
    ProgramSpace47();
    LexCons(Program, 48, 52, ts[9..]);
    ProgramStep45();
    LexCons(Program, 45, 47, ts[8..]);
    ProgramStep43();
    ProgramSpace42();
    LexCons(Program, 43, 45, ts[7..]);
    ProgramStep36();
    LexCons(Program, 36, 42, ts[6..]);
  }

  /** Lexing the program of src/main.rs. */
  lemma ProgramLexes()
    ensures Lex(Program) == Ok(ProgramTokens)
  {
    var ts := ProgramTokens;
    ProgramTail();
    ProgramStep32();
    LexCons(Program, 32, 36, ts[5..]);
    ProgramStep26();
    ProgramSpace31();
    LexCons(Program, 26, 31, ts[4..]);
    ProgramStep18();
    ProgramSpace25();
    LexCons(Program, 18, 25, ts[3..]);
    ProgramStep15();
    ProgramSpace17();
    LexCons(Program, 15, 17, ts[2..]);
    ProgramStep11();
    LexCons(Program, 11, 15, ts[1..]);
    ProgramStep0();
    ProgramSpace10();
    LexCons(Program, 0, 10, ts[0..]);
    assert ts[0..] == ts;
  }
}
