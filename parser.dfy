/** The recursive-descent parser of src/parser.rs.

    As for the lexer, the first half gives, as functions of the token
    sequence and a cursor position, what every production yields and where
    it leaves the cursor; the second half is the `Parser` class, whose
    methods are proved to agree with them. A production that does not match
    yields no command (Rust's `?` on an `Option`); a panic of a nested lexer
    is a fault. */
module Parsing {
  import opened Wrappers
  import opened Tokens
  import opened Commands
  import Lexing

  /** What a reader yields (None for nothing) and the cursor after it. */
  datatype Parsed<T> = Parsed(value: Option<T>, next: nat)

  /** A parsed value seen through the Rust signature, which has no cursor. */
  function ValueOf<T>(r: Result<Parsed<T>>): Result<Option<T>> {
    if r.Ok? then Ok(r.value.value) else Fault(r.message)
  }

  /** The cursor after `next_token`: one further when a token is left. */
  function Consumed(ts: seq<Token>, pos: nat): nat {
    if pos < |ts| then pos + 1 else pos
  }

  // ---------------------------------------------------------------------
  // Token readers
  // ---------------------------------------------------------------------

  /** `next_token`. */
  function NextTokenAt(ts: seq<Token>, pos: nat): (p: Parsed<Token>)
    requires pos <= |ts|
    ensures p.next == Consumed(ts, pos)
    ensures p.value.Some? <==> pos < |ts|
    ensures p.value.Some? ==> p.value.value == ts[pos]
  {
    if |ts| < pos + 1 then Parsed(None, pos) else Parsed(Some(ts[pos]), pos + 1)
  }

  /** The value tokens `expect_value` accepts. */
  predicate IsValue(t: Token) {
    t.ArrayNumber? || t.ArrayString? || t.Number? || t.StringLiteral?
  }

  /** `expect_block`. */
  function ExpectBlockAt(ts: seq<Token>, pos: nat): (p: Parsed<seq<Token>>)
    requires pos <= |ts|
    ensures p.next == Consumed(ts, pos)
    ensures p.value.Some? <==> pos < |ts| && ts[pos].Block?
    ensures p.value.Some? ==> ts[pos] == Token.Block(p.value.value)
  {
    var t := NextTokenAt(ts, pos);
    if t.value.Some? && t.value.value.Block? then Parsed(Some(t.value.value.tokens), t.next)
    else Parsed(None, t.next)
  }

  /** `expect_ingredient`. */
  function ExpectIngredientAt(ts: seq<Token>, pos: nat): (p: Parsed<Token>)
    requires pos <= |ts|
    ensures p.next == Consumed(ts, pos)
    ensures p.value.Some? <==> pos < |ts| && ts[pos] == Token.Ingredient
    ensures p.value.Some? ==> p.value.value == Token.Ingredient
  {
    var t := NextTokenAt(ts, pos);
    if t.value == Some(Token.Ingredient) then Parsed(Some(Token.Ingredient), t.next) else Parsed(None, t.next)
  }

  /** `expect_identifier`. */
  function ExpectIdentifierAt(ts: seq<Token>, pos: nat): (p: Parsed<string>)
    requires pos <= |ts|
    ensures p.next == Consumed(ts, pos)
    ensures p.value.Some? <==> pos < |ts| && ts[pos].Identifier?
    ensures p.value.Some? ==> ts[pos] == Token.Identifier(p.value.value)
  {
    var t := NextTokenAt(ts, pos);
    if t.value.Some? && t.value.value.Identifier? then Parsed(Some(t.value.value.name), t.next)
    else Parsed(None, t.next)
  }

  /** `expect_value`. */
  function ExpectValueAt(ts: seq<Token>, pos: nat): (p: Parsed<Token>)
    requires pos <= |ts|
    ensures p.next == Consumed(ts, pos)
    ensures p.value.Some? <==> pos < |ts| && IsValue(ts[pos])
    ensures p.value.Some? ==> p.value.value == ts[pos]
  {
    var t := NextTokenAt(ts, pos);
    if t.value.None? then t
    else
      match t.value.value
      case ArrayNumber(xs) => Parsed(Some(Token.ArrayNumber(xs)), t.next)
      case ArrayString(xs) => Parsed(Some(Token.ArrayString(xs)), t.next)
      case Number(n) => Parsed(Some(Token.Number(n)), t.next)
      case StringLiteral(s) => Parsed(Some(Token.StringLiteral(s)), t.next)
      case _ => Parsed(None, t.next)
  }

  /** `expect_comparison`. */
  function ExpectComparisonAt(ts: seq<Token>, pos: nat): (p: Parsed<Token>)
    requires pos <= |ts|
    ensures p.next == Consumed(ts, pos)
    ensures p.value.Some? <==> pos < |ts| && IsComparison(ts[pos])
    ensures p.value.Some? ==> p.value.value == ts[pos]
  {
    var t := NextTokenAt(ts, pos);
    if t.value.None? then t
    else
      match t.value.value
      case Hotter => Parsed(Some(Token.Hotter), t.next)
      case Cooler => Parsed(Some(Token.Cooler), t.next)
      case Same => Parsed(Some(Token.Same), t.next)
      case HotOrSame => Parsed(Some(Token.HotOrSame), t.next)
      case CoolOrSame => Parsed(Some(Token.CoolOrSame), t.next)
      case NotSame => Parsed(Some(Token.NotSame), t.next)
      case _ => Parsed(None, t.next)
  }

  /** `expect_token`: the next token, when it equals `expected`; the token
      is consumed either way. */
  function ExpectTokenAt(ts: seq<Token>, pos: nat, expected: Token): (p: Parsed<Token>)
    requires pos <= |ts|
    ensures p.next == Consumed(ts, pos)
    ensures p.value.Some? <==> pos < |ts| && ts[pos] == expected
    ensures p.value.Some? ==> p.value.value == expected
  {
    var t := NextTokenAt(ts, pos);
    if t.value.Some? && t.value.value == expected then t else Parsed(None, t.next)
  }

  /** `expect_string_literal`. */
  function ExpectStringLiteralAt(ts: seq<Token>, pos: nat): (p: Parsed<Token>)
    requires pos <= |ts|
    ensures p.next == Consumed(ts, pos)
    ensures p.value.Some? <==> pos < |ts| && ts[pos].StringLiteral?
    ensures p.value.Some? ==> p.value.value == ts[pos]
  {
    var t := NextTokenAt(ts, pos);
    if t.value.Some? && t.value.value.StringLiteral? then Parsed(Some(Token.StringLiteral(t.value.value.text)), t.next)
    else Parsed(None, t.next)
  }

  /** `expect_params`. */
  function ExpectParamsAt(ts: seq<Token>, pos: nat): (p: Parsed<seq<string>>)
    requires pos <= |ts|
    ensures p.next == Consumed(ts, pos)
    ensures p.value.Some? <==> pos < |ts| && ts[pos].ArrayString?
    ensures p.value.Some? ==> ts[pos] == Token.ArrayString(p.value.value)
  {
    var t := NextTokenAt(ts, pos);
    if t.value.Some? && t.value.value.ArrayString? then Parsed(Some(t.value.value.strings), t.next)
    else Parsed(None, t.next)
  }

  // ---------------------------------------------------------------------
  // Productions
  // ---------------------------------------------------------------------

  /** `parse_ingredient`: `ingredient <identifier> is <value>`. */
  function IngredientAt(ts: seq<Token>, pos: nat): (p: Parsed<Command>)
    requires pos <= |ts|
    ensures p.next <= |ts|
    ensures p.value.Some? <==>
              pos + 4 <= |ts| && ts[pos] == Token.Ingredient && ts[pos + 1].Identifier?
              && ts[pos + 2] == Token.Is && IsValue(ts[pos + 3])
    ensures p.value.Some? ==>
              p.value.value == Command.Ingredient(ts[pos + 1].name, ts[pos + 3]) && p.next == pos + 4
  {
    var a := ExpectIngredientAt(ts, pos);
    if a.value.None? then Parsed(None, a.next) else
    var x := ExpectIdentifierAt(ts, a.next);
    if x.value.None? then Parsed(None, x.next) else
    var b := ExpectTokenAt(ts, x.next, Token.Is);
    if b.value.None? then Parsed(None, b.next) else
    var v := ExpectValueAt(ts, b.next);
    if v.value.None? then Parsed(None, v.next) else
    Parsed(Some(Command.Ingredient(x.value.value, v.value.value)), v.next)
  }

  /** The head `parse_taste` and `parse_layer` share: the keyword, two
      identifiers around a comparison, and a string literal, whose text the
      production then lexes. */
  datatype Guard = Guard(identifier1: string, comparison: Token, identifier2: string, text: string)

  function GuardAt(ts: seq<Token>, pos: nat, keyword: Token): (p: Parsed<Guard>)
    requires pos <= |ts|
    ensures p.next <= |ts|
    ensures p.value.Some? <==>
              pos + 5 <= |ts| && ts[pos] == keyword && ts[pos + 1].Identifier? && IsComparison(ts[pos + 2])
              && ts[pos + 3].Identifier? && ts[pos + 4].StringLiteral?
    ensures p.value.Some? ==>
              p.value.value == Guard(ts[pos + 1].name, ts[pos + 2], ts[pos + 3].name, ts[pos + 4].text)
              && p.next == pos + 5
  {
    var a := ExpectTokenAt(ts, pos, keyword);
    if a.value.None? then Parsed(None, a.next) else
    var x := ExpectIdentifierAt(ts, a.next);
    if x.value.None? then Parsed(None, x.next) else
    var c := ExpectComparisonAt(ts, x.next);
    if c.value.None? then Parsed(None, c.next) else
    var y := ExpectIdentifierAt(ts, c.next);
    if y.value.None? then Parsed(None, y.next) else
    var block := ExpectStringLiteralAt(ts, y.next);
    if block.value.None? then Parsed(None, block.next) else
    match block.value.value
    case StringLiteral(s) => Parsed(Some(Guard(x.value.value, c.value.value, y.value.value, s)), block.next)
    case _ => Parsed(None, block.next)
  }

  /** `parse_taste`. */
  function TasteAt(ts: seq<Token>, pos: nat): (r: Result<Parsed<Command>>)
    requires pos <= |ts|
    ensures r.Ok? ==> r.value.next <= |ts|
    ensures r.Ok? && r.value.value.Some? ==> r.value.value.value.Taste? && r.value.next == pos + 5
  {
    var g := GuardAt(ts, pos, Token.Taste);
    if g.value.None? then Ok(Parsed(None, g.next))
    else
      var Guard(x, c, y, s) := g.value.value;
      match Lexing.Lex(s)
      case Fault(m) => Fault(m)
      case Ok(body) => Ok(Parsed(Some(Command.Taste(x, c, y, body)), g.next))
  }

  /** `parse_layer`. */
  function LayerAt(ts: seq<Token>, pos: nat): (r: Result<Parsed<Command>>)
    requires pos <= |ts|
    ensures r.Ok? ==> r.value.next <= |ts|
    ensures r.Ok? && r.value.value.Some? ==> r.value.value.value.Layer? && r.value.next == pos + 5
  {
    var g := GuardAt(ts, pos, Token.Layer);
    if g.value.None? then Ok(Parsed(None, g.next))
    else
      var Guard(x, c, y, s) := g.value.value;
      match Lexing.Lex(s)
      case Fault(m) => Fault(m)
      case Ok(body) => Ok(Parsed(Some(Command.Layer(x, c, y, body)), g.next))
  }

  /** `parse_cook`: `cook <string literal>`. */
  function CookAt(ts: seq<Token>, pos: nat): (r: Result<Parsed<Command>>)
    requires pos <= |ts|
    ensures r.Ok? ==> r.value.next <= |ts|
    ensures r.Ok? && r.value.value.Some? ==>
              pos + 2 <= |ts| && ts[pos] == Token.Cook && ts[pos + 1].StringLiteral?
              && r.value.value.value.Cook? && Lexing.Lex(ts[pos + 1].text) == Ok(r.value.value.value.tokens)
              && r.value.next == pos + 2
  {
    var a := ExpectTokenAt(ts, pos, Token.Cook);
    if a.value.None? then Ok(Parsed(None, a.next)) else
    var block := ExpectStringLiteralAt(ts, a.next);
    if block.value.None? then Ok(Parsed(None, block.next)) else
    match block.value.value
    case StringLiteral(s) =>
      (match Lexing.Lex(s)
       case Fault(m) => Fault(m)
       case Ok(body) => Ok(Parsed(Some(Command.Cook(body)), block.next)))
    case _ => Ok(Parsed(None, block.next))
  }

  /** `parse_serve`: `serve <identifier>`. */
  function ServeAt(ts: seq<Token>, pos: nat): (p: Parsed<Command>)
    requires pos <= |ts|
    ensures p.next <= |ts|
    ensures p.value.Some? <==> pos + 2 <= |ts| && ts[pos] == Token.Serve && ts[pos + 1].Identifier?
    ensures p.value.Some? ==> p.value.value == Command.Serve(ts[pos + 1].name) && p.next == pos + 2
  {
    var a := ExpectTokenAt(ts, pos, Token.Serve);
    if a.value.None? then Parsed(None, a.next) else
    var x := ExpectIdentifierAt(ts, a.next);
    if x.value.None? then Parsed(None, x.next) else
    Parsed(Some(Command.Serve(x.value.value)), x.next)
  }

  /** `parse_plate`: `plate` and whatever single token follows. */
  function PlateAt(ts: seq<Token>, pos: nat): (p: Parsed<Command>)
    requires pos <= |ts|
    ensures p.next <= |ts|
    ensures p.value.Some? <==> pos + 2 <= |ts| && ts[pos] == Token.Plate
    ensures p.value.Some? ==> p.value.value == Command.Plate(ts[pos + 1]) && p.next == pos + 2
  {
    var a := ExpectTokenAt(ts, pos, Token.Plate);
    if a.value.None? then Parsed(None, a.next) else
    var v := NextTokenAt(ts, a.next);
    if v.value.None? then Parsed(None, v.next) else
    Parsed(Some(Command.Plate(v.value.value)), v.next)
  }

  /** `parse_recipe`: `recipe <string array> <string literal>`. */
  function RecipeAt(ts: seq<Token>, pos: nat): (r: Result<Parsed<Command>>)
    requires pos <= |ts|
    ensures r.Ok? ==> r.value.next <= |ts|
    ensures r.Ok? && r.value.value.Some? ==>
              pos + 3 <= |ts| && ts[pos] == Token.Recipe && ts[pos + 1].ArrayString? && ts[pos + 2].StringLiteral?
              && r.value.value.value.Recipe? && r.value.value.value.params == ts[pos + 1].strings
              && Lexing.Lex(ts[pos + 2].text) == Ok(r.value.value.value.tokens) && r.value.next == pos + 3
  {
    var a := ExpectTokenAt(ts, pos, Token.Recipe);
    if a.value.None? then Ok(Parsed(None, a.next)) else
    var params := ExpectParamsAt(ts, a.next);
    if params.value.None? then Ok(Parsed(None, params.next)) else
    var block := ExpectStringLiteralAt(ts, params.next);
    if block.value.None? then Ok(Parsed(None, block.next)) else
    match block.value.value
    case StringLiteral(s) =>
      (match Lexing.Lex(s)
       case Fault(m) => Fault(m)
       case Ok(body) => Ok(Parsed(Some(Command.Recipe(params.value.value, body)), block.next)))
    case _ => Ok(Parsed(None, block.next))
  }

  /** `parse_simmer`: `simmer <identifier> in <identifier> <block>`, whose
      block is parsed by a parser of its own. */
  function SimmerAt(ts: seq<Token>, pos: nat): (r: Result<Parsed<Command>>)
    requires pos <= |ts|
    ensures r.Ok? ==> r.value.next <= |ts|
    ensures r.Ok? && r.value.value.Some? ==>
              pos + 5 <= |ts| && ts[pos] == Token.Simmer && ts[pos + 1].Identifier? && ts[pos + 2] == Token.In
              && ts[pos + 3].Identifier? && ts[pos + 4].Block?
              && r.value.value.value.Simmer? && r.value.next == pos + 5
    decreases ts, 0
  {
    var a := ExpectTokenAt(ts, pos, Token.Simmer);
    if a.value.None? then Ok(Parsed(None, a.next)) else
    var x := ExpectIdentifierAt(ts, a.next);
    if x.value.None? then Ok(Parsed(None, x.next)) else
    var b := ExpectTokenAt(ts, x.next, Token.In);
    if b.value.None? then Ok(Parsed(None, b.next)) else
    var y := ExpectIdentifierAt(ts, b.next);
    if y.value.None? then Ok(Parsed(None, y.next)) else
    var body := ExpectBlockAt(ts, y.next);
    if body.value.None? then Ok(Parsed(None, body.next)) else
    match ParseFrom(body.value.value, 0)
    case Fault(m) => Fault(m)
    case Ok(run) => Ok(Parsed(Some(Command.Simmer(x.value.value, y.value.value, run.commands)), body.next))
  }

  /** The tokens `parse_token` hands to a production. */
  predicate IsLeading(t: Token) {
    t.Ingredient? || t.Taste? || t.Layer? || t.Simmer? || t.Cook? || t.Serve? || t.Plate? || t.Recipe?
  }

  /** `parse_token`: the production chosen by the current token. */
  function CommandAt(ts: seq<Token>, pos: nat): (r: Result<Parsed<Command>>)
    requires pos <= |ts|
    ensures r.Ok? ==> pos <= r.value.next <= |ts|
    ensures r.Ok? && r.value.value.Some? ==> pos + 2 <= r.value.next
    ensures pos == |ts| || !IsLeading(ts[pos]) ==> r == Ok(Parsed(None, pos))
    decreases ts, 1
  {
    if pos == |ts| then Ok(Parsed(None, pos))
    else
      match ts[pos]
      case Ingredient => Ok(IngredientAt(ts, pos))
      case Taste => TasteAt(ts, pos)
      case Layer => LayerAt(ts, pos)
      case Simmer => SimmerAt(ts, pos)
      case Cook => CookAt(ts, pos)
      case Serve => Ok(ServeAt(ts, pos))
      case Plate => Ok(PlateAt(ts, pos))
      case Recipe => RecipeAt(ts, pos)
      case _ => Ok(Parsed(None, pos))
  }

  /** The commands of a `parse` and the cursor where it stopped. */
  datatype ParseRun = ParseRun(commands: seq<Command>, stop: nat)

  /** `parse` from `pos`: commands up to the first position where no
      command is read. */
  function ParseFrom(ts: seq<Token>, pos: nat): (r: Result<ParseRun>)
    requires pos <= |ts|
    ensures r.Ok? ==> pos <= r.value.stop <= |ts|
    decreases ts, 2, |ts| - pos
  {
    match CommandAt(ts, pos)
    case Fault(m) => Fault(m)
    case Ok(p) =>
      if p.value.None? then Ok(ParseRun([], p.next))
      else
        match ParseFrom(ts, p.next)
        case Fault(m) => Fault(m)
        case Ok(rest) => Ok(ParseRun([p.value.value] + rest.commands, rest.stop))
  }

  /** A parse seen through the Rust signature, which has no cursor. */
  function CommandsOf(r: Result<ParseRun>): Result<seq<Command>> {
    if r.Ok? then Ok(r.value.commands) else Fault(r.message)
  }

  /** Parsing a whole token sequence, as `Parser::new(tokens).parse()` does. */
  function Parse(ts: seq<Token>): Result<seq<Command>> {
    CommandsOf(ParseFrom(ts, 0))
  }

  /** Commands already collected in front of the outcome of the rest of a parse. */
  function PrependRun(cs: seq<Command>, r: Result<ParseRun>): Result<ParseRun> {
    if r.Ok? then Ok(ParseRun(cs + r.value.commands, r.value.stop)) else r
  }

  /** One turn of the loop of `parse`. */
  lemma ParseStep(ts: seq<Token>, pos: nat, cs: seq<Command>)
    requires pos <= |ts|
    requires CommandAt(ts, pos).Ok? && CommandAt(ts, pos).value.value.Some?
    ensures var p := CommandAt(ts, pos).value;
            PrependRun(cs, ParseFrom(ts, pos)) == PrependRun(cs + [p.value.value], ParseFrom(ts, p.next))
  {
    var p := CommandAt(ts, pos).value;
    var rest := ParseFrom(ts, p.next);
    if rest.Ok? {
      assert cs + ([p.value.value] + rest.value.commands) == cs + [p.value.value] + rest.value.commands;
    }
  }

  // ---------------------------------------------------------------------
  // The parser object
  // ---------------------------------------------------------------------

  class Parser {
    const tokens: seq<Token>
    var position: nat

    ghost predicate Valid()
      reads this
    {
      position <= |tokens|
    }

    constructor (tokens: seq<Token>)
      ensures this.tokens == tokens && position == 0 && Valid()
    {
      this.tokens := tokens;
      position := 0;
    }

    method Parse() returns (r: Result<seq<Command>>)
      requires Valid()
      modifies this
      ensures Valid()
      ensures r == CommandsOf(ParseFrom(tokens, old(position)))
      ensures r.Ok? ==> position == ParseFrom(tokens, old(position)).value.stop
      decreases tokens, 3
    {
      var commands: seq<Command> := [];
      assert ParseFrom(tokens, position).Ok? ==>
               [] + ParseFrom(tokens, position).value.commands == ParseFrom(tokens, position).value.commands;
      while true
        invariant Valid() && old(position) <= position
        invariant ParseFrom(tokens, old(position)) == PrependRun(commands, ParseFrom(tokens, position))
        decreases |tokens| - position
      {
        ghost var before := position;
        var command := ParseToken();
        if command.Ok? && command.value.Some? {
          ParseStep(tokens, before, commands);
        }
        match command {
          case Fault(m) => return Fault(m);
          case Ok(c) =>
            if c.None? {
              assert commands + [] == commands;
              return Ok(commands);
            }
            commands := commands + [c.value];
        }
      }
    }

    method ParseToken() returns (r: Result<Option<Command>>)
      requires Valid()
      modifies this
      ensures Valid()
      ensures r == ValueOf(CommandAt(tokens, old(position)))
      ensures r.Ok? ==> position == CommandAt(tokens, old(position)).value.next
      decreases tokens, 2
    {
      var token := CurrToken();
      if token.None? {
        return Ok(None);
      }
      match token.value {
        case Ingredient => var c := ParseIngredient(); r := Ok(c);
        case Taste => r := ParseTaste();
        case Layer => r := ParseLayer();
        case Simmer => r := ParseSimmer();
        case Cook => r := ParseCook();
        case Serve => var c := ParseServe(); r := Ok(c);
        case Plate => var c := ParsePlate(); r := Ok(c);
        case Recipe => r := ParseRecipe();
        case _ => r := Ok(None);
      }
    }

    method ParseIngredient() returns (c: Option<Command>)
      requires Valid()
      modifies this
      ensures Valid()
      ensures c == IngredientAt(tokens, old(position)).value && position == IngredientAt(tokens, old(position)).next
    {
      var ingredient := ExpectIngredient();
      if ingredient.None? { return None; }
      var identifier := ExpectIdentifier();
      if identifier.None? { return None; }
      var isToken := ExpectToken(Token.Is);
      if isToken.None? { return None; }
      var value := ExpectValue();
      if value.None? { return None; }
      c := Some(Command.Ingredient(identifier.value, value.value));
    }

    method ParseTaste() returns (r: Result<Option<Command>>)
      requires Valid()
      modifies this
      ensures Valid()
      ensures r == ValueOf(TasteAt(tokens, old(position)))
      ensures r.Ok? ==> position == TasteAt(tokens, old(position)).value.next
    {
      var taste := ExpectToken(Token.Taste);
      if taste.None? { return Ok(None); }
      var identifier1 := ExpectIdentifier();
      if identifier1.None? { return Ok(None); }
      var comparison := ExpectComparison();
      if comparison.None? { return Ok(None); }
      var identifier2 := ExpectIdentifier();
      if identifier2.None? { return Ok(None); }
      var block := ExpectStringLiteral();
      if block.None? { return Ok(None); }
      var lexer := new Lexing.Lexer(block.value.text);
      var body :- lexer.Lex();
      r := Ok(Some(Command.Taste(identifier1.value, comparison.value, identifier2.value, body)));
    }

    method ParseLayer() returns (r: Result<Option<Command>>)
      requires Valid()
      modifies this
      ensures Valid()
      ensures r == ValueOf(LayerAt(tokens, old(position)))
      ensures r.Ok? ==> position == LayerAt(tokens, old(position)).value.next
    {
      var layer := ExpectToken(Token.Layer);
      if layer.None? { return Ok(None); }
      var identifier1 := ExpectIdentifier();
      if identifier1.None? { return Ok(None); }
      var comparison := ExpectComparison();
      if comparison.None? { return Ok(None); }
      var identifier2 := ExpectIdentifier();
      if identifier2.None? { return Ok(None); }
      var block := ExpectStringLiteral();
      if block.None? { return Ok(None); }
      var lexer := new Lexing.Lexer(block.value.text);
      var body :- lexer.Lex();
      r := Ok(Some(Command.Layer(identifier1.value, comparison.value, identifier2.value, body)));
    }

    method ParseSimmer() returns (r: Result<Option<Command>>)
      requires Valid()
      modifies this
      ensures Valid()
      ensures r == ValueOf(SimmerAt(tokens, old(position)))
      ensures r.Ok? ==> position == SimmerAt(tokens, old(position)).value.next
      decreases tokens, 1
    {
      var simmer := ExpectToken(Token.Simmer);
      if simmer.None? { return Ok(None); }
      var identifier := ExpectIdentifier();
      if identifier.None? { return Ok(None); }
      var inToken := ExpectToken(Token.In);
      if inToken.None? { return Ok(None); }
      var arrayIdentifier := ExpectIdentifier();
      if arrayIdentifier.None? { return Ok(None); }
      var block := ExpectBlock();
      if block.None? { return Ok(None); }
      var parser := new Parser(block.value);
      var commands :- parser.Parse();
      r := Ok(Some(Command.Simmer(identifier.value, arrayIdentifier.value, commands)));
    }

    method ParseCook() returns (r: Result<Option<Command>>)
      requires Valid()
      modifies this
      ensures Valid()
      ensures r == ValueOf(CookAt(tokens, old(position)))
      ensures r.Ok? ==> position == CookAt(tokens, old(position)).value.next
    {
      var cook := ExpectToken(Token.Cook);
      if cook.None? { return Ok(None); }
      var block := ExpectStringLiteral();
      if block.None? { return Ok(None); }
      var lexer := new Lexing.Lexer(block.value.text);
      var body :- lexer.Lex();
      r := Ok(Some(Command.Cook(body)));
    }

    method ParseServe() returns (c: Option<Command>)
      requires Valid()
      modifies this
      ensures Valid()
      ensures c == ServeAt(tokens, old(position)).value && position == ServeAt(tokens, old(position)).next
    {
      var serve := ExpectToken(Token.Serve);
      if serve.None? { return None; }
      var identifier := ExpectIdentifier();
      if identifier.None? { return None; }
      c := Some(Command.Serve(identifier.value));
    }

    method ParsePlate() returns (c: Option<Command>)
      requires Valid()
      modifies this
      ensures Valid()
      ensures c == PlateAt(tokens, old(position)).value && position == PlateAt(tokens, old(position)).next
    {
      var plate := ExpectToken(Token.Plate);
      if plate.None? { return None; }
      var value := NextToken();
      if value.None? { return None; }
      c := Some(Command.Plate(value.value));
    }

    method ParseRecipe() returns (r: Result<Option<Command>>)
      requires Valid()
      modifies this
      ensures Valid()
      ensures r == ValueOf(RecipeAt(tokens, old(position)))
      ensures r.Ok? ==> position == RecipeAt(tokens, old(position)).value.next
    {
      var recipe := ExpectToken(Token.Recipe);
      if recipe.None? { return Ok(None); }
      var params := ExpectParams();
      if params.None? { return Ok(None); }
      var block := ExpectStringLiteral();
      if block.None? { return Ok(None); }
      var lexer := new Lexing.Lexer(block.value.text);
      var body :- lexer.Lex();
      r := Ok(Some(Command.Recipe(params.value, body)));
    }

    method ExpectBlock() returns (b: Option<seq<Token>>)
      requires Valid()
      modifies this
      ensures Valid()
      ensures b == ExpectBlockAt(tokens, old(position)).value && position == Consumed(tokens, old(position))
    {
      var t := NextToken();
      if t.Some? && t.value.Block? {
        return Some(t.value.tokens);
      }
      return None;
    }

    method ExpectIngredient() returns (t: Option<Token>)
      requires Valid()
      modifies this
      ensures Valid()
      ensures t == ExpectIngredientAt(tokens, old(position)).value && position == Consumed(tokens, old(position))
    {
      var next := NextToken();
      if next == Some(Token.Ingredient) {
        return Some(Token.Ingredient);
      }
      return None;
    }

    method ExpectIdentifier() returns (x: Option<string>)
      requires Valid()
      modifies this
      ensures Valid()
      ensures x == ExpectIdentifierAt(tokens, old(position)).value && position == Consumed(tokens, old(position))
    {
      var t := NextToken();
      if t.Some? && t.value.Identifier? {
        return Some(t.value.name);
      }
      return None;
    }

    method ExpectValue() returns (v: Option<Token>)
      requires Valid()
      modifies this
      ensures Valid()
      ensures v == ExpectValueAt(tokens, old(position)).value && position == Consumed(tokens, old(position))
    {
      var t := NextToken();
      if t.None? {
        return None;
      }
      match t.value {
        case ArrayNumber(xs) => v := Some(Token.ArrayNumber(xs));
        case ArrayString(xs) => v := Some(Token.ArrayString(xs));
        case Number(n) => v := Some(Token.Number(n));
        case StringLiteral(s) => v := Some(Token.StringLiteral(s));
        case _ => v := None;
      }
    }

    method ExpectComparison() returns (c: Option<Token>)
      requires Valid()
      modifies this
      ensures Valid()
      ensures c == ExpectComparisonAt(tokens, old(position)).value && position == Consumed(tokens, old(position))
    {
      var t := NextToken();
      if t.None? {
        return None;
      }
      match t.value {
        case Hotter => c := Some(Token.Hotter);
        case Cooler => c := Some(Token.Cooler);
        case Same => c := Some(Token.Same);
        case HotOrSame => c := Some(Token.HotOrSame);
        case CoolOrSame => c := Some(Token.CoolOrSame);
        case NotSame => c := Some(Token.NotSame);
        case _ => c := None;
      }
    }

    method ExpectToken(expected: Token) returns (t: Option<Token>)
      requires Valid()
      modifies this
      ensures Valid()
      ensures t == ExpectTokenAt(tokens, old(position), expected).value && position == Consumed(tokens, old(position))
    {
      var next := NextToken();
      if next.Some? {
        if expected == next.value {
          return next;
        }
        return None;
      }
      return None;
    }

    method ExpectStringLiteral() returns (t: Option<Token>)
      requires Valid()
      modifies this
      ensures Valid()
      ensures t == ExpectStringLiteralAt(tokens, old(position)).value && position == Consumed(tokens, old(position))
    {
      var next := NextToken();
      if next.Some? && next.value.StringLiteral? {
        return Some(Token.StringLiteral(next.value.text));
      }
      return None;
    }

    method ExpectParams() returns (p: Option<seq<string>>)
      requires Valid()
      modifies this
      ensures Valid()
      ensures p == ExpectParamsAt(tokens, old(position)).value && position == Consumed(tokens, old(position))
    {
      var t := NextToken();
      if t.Some? && t.value.ArrayString? {
        return Some(t.value.strings);
      }
      return None;
    }

    method CurrToken() returns (t: Option<Token>)
      ensures t == if position < |tokens| then Some(tokens[position]) else None
    {
      if position < |tokens| {
        return Some(tokens[position]);
      }
      return None;
    }

    /** `next_token`: the current token, and the cursor one further; at the
        end nothing, and the cursor stays. */
    method NextToken() returns (t: Option<Token>)
      requires Valid()
      modifies this
      ensures Valid()
      ensures old(position) < |tokens| ==> t == Some(tokens[old(position)]) && position == old(position) + 1
      ensures old(position) == |tokens| ==> t == None && position == old(position)
    {
      if |tokens| < position + 1 {
        return None;
      }
      t := CurrToken();
      Advance();
    }

    method Advance()
      requires position < |tokens|
      modifies this
      ensures position == old(position) + 1 && Valid()
    {
      position := position + 1;
    }
  }
}
