/** The lexical units of the language (src/tokens.rs) and the two small
    enumerations of src/utils.rs. */
module Tokens {

  /** The arithmetic operators (MathsOperations). */
  datatype MathsOperation = Plus | Minus | Multiply | Division | Mod

  /** The element kind the lexer guesses for a bracketed array (ValueType). */
  datatype ValueType = String | Number

  /** One lexical unit. All variants of tokens.rs, plus `Maths`, which the
      interpreter matches on although tokens.rs does not declare it. */
  datatype Token =
    | Ingredient
    | Taste
    | TasteAgain
    | Tasteless
    | Layer
    | Simmer
    | Cook
    | Burnt
    | Serve
    | Plate
    | Recipe
    | Fresh
    | Spoiled
    | Mix
    | Separate
    | Number(number: int)
    | Identifier(name: string)
    | StringLiteral(text: string)
    | LeftBracket
    | RightBracket
    | Is
    | ArrayNumber(numbers: seq<int>)
    | ArrayString(strings: seq<string>)
    | Hotter
    | Cooler
    | Same
    | NotSame
    | HotOrSame
    | CoolOrSame
    | In
    | Space
    | Block(tokens: seq<Token>)
    | Maths(op: MathsOperation)

  /** The six comparison tokens. */
  predicate IsComparison(t: Token) {
    t.Hotter? || t.Cooler? || t.Same? || t.HotOrSame? || t.CoolOrSame? || t.NotSame?
  }

  /** No `Space` token at any depth, blocks included. */
  predicate SpaceFree(ts: seq<Token>)
    decreases ts
  {
    forall i :: 0 <= i < |ts| ==> ts[i] != Space && (ts[i].Block? ==> SpaceFree(ts[i].tokens))
  }

  /** No `StringLiteral` token at any depth, blocks included. */
  predicate LiteralFree(ts: seq<Token>)
    decreases ts
  {
    forall i :: 0 <= i < |ts| ==> !ts[i].StringLiteral? && (ts[i].Block? ==> LiteralFree(ts[i].tokens))
  }
}
