/** What the parser of src/parser.rs guarantees, stated about the
    production functions of module Parsing. */
module ParserProperties {
  import opened Wrappers
  import opened Tokens
  import opened Commands
  import opened Parsing
  import Lexing

  /** The token shape `parse_taste` and `parse_layer` accept after their keyword. */
  predicate GuardShape(ts: seq<Token>, pos: nat, keyword: Token) {
    pos + 5 <= |ts| && ts[pos] == keyword && ts[pos + 1].Identifier? && IsComparison(ts[pos + 2])
    && ts[pos + 3].Identifier? && ts[pos + 4].StringLiteral?
  }

  /** `parse_taste` yields a command exactly on its shape, when the string
      literal lexes; the command carries the two names, the comparison and
      the tokens of the literal. A literal that does not lex is a fault. */
  lemma TasteShape(ts: seq<Token>, pos: nat)
    requires pos <= |ts|
    ensures var r := TasteAt(ts, pos);
            && (!GuardShape(ts, pos, Token.Taste) ==> r.Ok? && r.value.value.None?)
            && (GuardShape(ts, pos, Token.Taste) ==>
                  var body := Lexing.Lex(ts[pos + 4].text);
                  r == if body.Ok?
                       then Ok(Parsed(Some(Command.Taste(ts[pos + 1].name, ts[pos + 2], ts[pos + 3].name, body.value)), pos + 5))
                       else Fault(body.message))
  {
  }

  /** `parse_layer`, the same shape as `parse_taste` under its own keyword. */
  lemma LayerShape(ts: seq<Token>, pos: nat)
    requires pos <= |ts|
    ensures var r := LayerAt(ts, pos);
            && (!GuardShape(ts, pos, Token.Layer) ==> r.Ok? && r.value.value.None?)
            && (GuardShape(ts, pos, Token.Layer) ==>
                  var body := Lexing.Lex(ts[pos + 4].text);
                  r == if body.Ok?
                       then Ok(Parsed(Some(Command.Layer(ts[pos + 1].name, ts[pos + 2], ts[pos + 3].name, body.value)), pos + 5))
                       else Fault(body.message))
  {
  }

  /** `parse_cook`: `cook` and a string literal, whose text is lexed. */
  lemma CookShape(ts: seq<Token>, pos: nat)
    requires pos <= |ts|
    ensures var r := CookAt(ts, pos);
            var shape := pos + 2 <= |ts| && ts[pos] == Token.Cook && ts[pos + 1].StringLiteral?;
            && (!shape ==> r.Ok? && r.value.value.None?)
            && (shape ==>
                  var body := Lexing.Lex(ts[pos + 1].text);
                  r == if body.Ok? then Ok(Parsed(Some(Command.Cook(body.value)), pos + 2)) else Fault(body.message))
  {
  }

  /** `parse_recipe`: `recipe`, a string array of parameters and a string
      literal, whose text is lexed. */
  lemma RecipeShape(ts: seq<Token>, pos: nat)
    requires pos <= |ts|
    ensures var r := RecipeAt(ts, pos);
            var shape := pos + 3 <= |ts| && ts[pos] == Token.Recipe && ts[pos + 1].ArrayString?
                         && ts[pos + 2].StringLiteral?;
            && (!shape ==> r.Ok? && r.value.value.None?)
            && (shape ==>
                  var body := Lexing.Lex(ts[pos + 2].text);
                  r == if body.Ok? then Ok(Parsed(Some(Command.Recipe(ts[pos + 1].strings, body.value)), pos + 3))
                       else Fault(body.message))
  {
  }

  /** `parse_simmer`: `simmer x in a` and a block, whose tokens are parsed
      by a parser of their own and become the body. */
  lemma SimmerShape(ts: seq<Token>, pos: nat)
    requires pos <= |ts|
    ensures var r := SimmerAt(ts, pos);
            var shape := pos + 5 <= |ts| && ts[pos] == Token.Simmer && ts[pos + 1].Identifier?
                         && ts[pos + 2] == Token.In && ts[pos + 3].Identifier? && ts[pos + 4].Block?;
            && (!shape ==> r.Ok? && r.value.value.None?)
            && (shape ==>
                  var body := ParseFrom(ts[pos + 4].tokens, 0);
                  r == if body.Ok?
                       then Ok(Parsed(Some(Command.Simmer(ts[pos + 1].name, ts[pos + 3].name, body.value.commands)), pos + 5))
                       else Fault(body.message))
  {
  }

  /** `cs` are the commands read one after the other from `pos`, the last
      one ending at `end`. */
  ghost predicate Chain(ts: seq<Token>, pos: nat, cs: seq<Command>, end: nat)
    decreases |cs|
  {
    pos <= |ts| &&
    if cs == [] then end == pos
    else
      var r := CommandAt(ts, pos);
      r.Ok? && r.value.value == Some(cs[0]) && Chain(ts, r.value.next, cs[1..], end)
  }

  lemma PrependNothing(r: Result<ParseRun>)
    ensures PrependRun([], r) == r
  {
    if r.Ok? {
      assert [] + r.value.commands == r.value.commands;
    }
  }

  lemma PrependTwice(c: Command, cs: seq<Command>, r: Result<ParseRun>)
    ensures PrependRun([c], PrependRun(cs, r)) == PrependRun([c] + cs, r)
  {
    if r.Ok? {
      assert [c] + (cs + r.value.commands) == [c] + cs + r.value.commands;
    }
  }

  /** Whatever chain of commands has been read is kept in front of what
      the rest of the parse yields: commands come out in input order and a
      later failing production does not undo them. */
  lemma {:induction false} ChainIsKept(ts: seq<Token>, pos: nat, cs: seq<Command>, end: nat)
    requires Chain(ts, pos, cs, end)
    ensures end <= |ts|
    ensures ParseFrom(ts, pos) == PrependRun(cs, ParseFrom(ts, end))
    decreases |cs|
  {
    if cs == [] {
      PrependNothing(ParseFrom(ts, pos));
    } else {
      var p := CommandAt(ts, pos).value;
      ChainIsKept(ts, p.next, cs[1..], end);
      ParseStep(ts, pos, []);
      PrependNothing(ParseFrom(ts, pos));
      assert [] + [cs[0]] == [cs[0]];
      PrependTwice(cs[0], cs[1..], ParseFrom(ts, end));
      assert [cs[0]] + cs[1..] == cs;
    }
  }

  /** A successful parse is a chain of commands followed by a position
      where no command is read: the first token that leads no production,
      the end of the tokens, or a production that does not match. */
  lemma {:induction false} ParseIsMaximalChain(ts: seq<Token>, pos: nat)
    requires pos <= |ts|
    ensures var r := ParseFrom(ts, pos);
            r.Ok? ==> exists end: nat :: end <= |ts| && Chain(ts, pos, r.value.commands, end) && CommandAt(ts, end) == Ok(Parsed(None, r.value.stop))
    decreases |ts| - pos
  {
    var r := ParseFrom(ts, pos);
    var c := CommandAt(ts, pos);
    if r.Ok? {
      if c.value.value.None? {
        assert Chain(ts, pos, [], pos);
      } else {
        ParseIsMaximalChain(ts, c.value.next);
        var rest := ParseFrom(ts, c.value.next).value;
        var end: nat :| end <= |ts| && Chain(ts, c.value.next, rest.commands, end) && CommandAt(ts, end) == Ok(Parsed(None, rest.stop));
        assert r.value.commands[1..] == rest.commands;
        assert Chain(ts, pos, r.value.commands, end);
      }
    }
  }

  /** Parsing stops at once at a token that leads no production. */
  lemma StopsAtNonLeading(ts: seq<Token>, pos: nat)
    requires pos < |ts| && !IsLeading(ts[pos])
    ensures ParseFrom(ts, pos) == Ok(ParseRun([], pos))
  {
  }

  /** Every command takes at least two tokens. */
  lemma {:induction false} CommandsTakeTwoTokens(ts: seq<Token>, pos: nat)
    requires pos <= |ts|
    ensures ParseFrom(ts, pos).Ok? ==> 2 * |ParseFrom(ts, pos).value.commands| <= ParseFrom(ts, pos).value.stop - pos
    decreases |ts| - pos
  {
    var c := CommandAt(ts, pos);
    if c.Ok? && c.value.value.Some? {
      CommandsTakeTwoTokens(ts, c.value.next);
    }
  }

  /** The commands that can arise from the lexer's output: the lexer emits
      no string literal, so taste, layer, cook and recipe never match. */
  predicate FromLexedSource(c: Command)
    decreases c
  {
    match c
    case Ingredient(_, v) => !v.StringLiteral?
    case Serve(_) => true
    case Plate(v) => !v.StringLiteral?
    case Simmer(_, _, body) => forall i :: 0 <= i < |body| ==> FromLexedSource(body[i])
    case _ => false
  }

  /** One production on tokens without string literals: no fault, and the
      command read, if any, is one the lexer's output can give. */
  lemma {:induction false} LexedCommand(ts: seq<Token>, pos: nat)
    requires pos <= |ts| && LiteralFree(ts)
    ensures CommandAt(ts, pos).Ok?
    ensures CommandAt(ts, pos).value.value.Some? ==> FromLexedSource(CommandAt(ts, pos).value.value.value)
    decreases ts, 0
  {
    if pos < |ts| {
      match ts[pos]
      case Taste => TasteShape(ts, pos);
      case Layer => LayerShape(ts, pos);
      case Cook => CookShape(ts, pos);
      case Recipe => RecipeShape(ts, pos);
      case Simmer =>
        SimmerShape(ts, pos);
        if pos + 5 <= |ts| && ts[pos + 4].Block? {
          LexedTokensParse(ts[pos + 4].tokens, 0);
        }
      case _ =>
    }
  }

  /** Tokens without string literals (all the lexer produces) parse without
      a fault, into ingredient, serve, plate and simmer commands only. */
  lemma {:induction false} LexedTokensParse(ts: seq<Token>, pos: nat)
    requires pos <= |ts| && LiteralFree(ts)
    ensures ParseFrom(ts, pos).Ok?
    ensures forall i :: 0 <= i < |ParseFrom(ts, pos).value.commands| ==>
              FromLexedSource(ParseFrom(ts, pos).value.commands[i])
    decreases ts, 1, |ts| - pos
  {
    LexedCommand(ts, pos);
    var c := CommandAt(ts, pos).value;
    if c.value.Some? {
      LexedTokensParse(ts, c.next);
    }
  }

  /** Lexing and then parsing any text either faults in the lexer or
      yields only ingredient, serve, plate and simmer commands. */
  lemma LexThenParse(text: string)
    ensures Lexing.Lex(text).Ok? ==>
              Parse(Lexing.Lex(text).value).Ok?
              && forall i :: 0 <= i < |Parse(Lexing.Lex(text).value).value| ==>
                   FromLexedSource(Parse(Lexing.Lex(text).value).value[i])
  {
    if Lexing.Lex(text).Ok? {
      LexedTokensParse(Lexing.Lex(text).value, 0);
    }
  }

  /** `parse` from a command: that command in front of the rest. */
  lemma ParseCons(ts: seq<Token>, pos: nat, next: nat, cs: seq<Command>, stop: nat)
    requires pos <= |ts| && |cs| > 0
    requires CommandAt(ts, pos) == Ok(Parsed(Some(cs[0]), next))
    requires ParseFrom(ts, next) == Ok(ParseRun(cs[1..], stop))
    ensures ParseFrom(ts, pos) == Ok(ParseRun(cs, stop))
  {
    assert [cs[0]] + cs[1..] == cs;
  }
}
