/** The scanner of src/lexer.rs.

    The first half of the module defines, as functions of the input and a
    cursor position, what every reader of the lexer yields and where it
    leaves the cursor. The second half is the `Lexer` class itself, whose
    methods follow the source's control flow and are proved to agree with
    those functions. The character classes of Rust
    (`is_digit(10)`, `is_alphabetic`, `is_alphanumeric`) are taken to be
    their ASCII restrictions. */
module Lexing {
  import opened Wrappers
  import opened Tokens

  // ---------------------------------------------------------------------
  // Character classes and runs
  // ---------------------------------------------------------------------

  predicate IsDigit(c: char) {
    '0' <= c <= '9'
  }

  predicate IsAlphabetic(c: char) {
    'a' <= c <= 'z' || 'A' <= c <= 'Z'
  }

  predicate IsAlphanumeric(c: char) {
    IsAlphabetic(c) || IsDigit(c)
  }

  function DigitValue(c: char): (d: nat)
    requires IsDigit(c)
    ensures d <= 9
  {
    c as int - '0' as int
  }

  /** The value of a string of decimal digits, most significant first
      (what `str::parse` gives for it). */
  function DecimalValue(s: seq<char>): nat
    requires forall k :: 0 <= k < |s| ==> IsDigit(s[k])
  {
    if s == [] then 0 else 10 * DecimalValue(s[..|s| - 1]) + DigitValue(s[|s| - 1])
  }

  /** The end of the longest run of characters satisfying `p` that starts at `pos`. */
  function RunEnd(input: seq<char>, pos: nat, p: char -> bool): (e: nat)
    requires pos <= |input|
    ensures pos <= e <= |input|
    ensures forall k :: pos <= k < e ==> p(input[k])
    ensures e < |input| ==> !p(input[e])
    decreases |input| - pos
  {
    if pos < |input| && p(input[pos]) then RunEnd(input, pos + 1, p) else pos
  }

  /** The index of the first `c` at or after `pos`, or |input| when there is none. */
  function Find(input: seq<char>, pos: nat, c: char): (e: nat)
    requires pos <= |input|
    ensures pos <= e <= |input|
    ensures forall k :: pos <= k < e ==> input[k] != c
    ensures e < |input| ==> input[e] == c
    decreases |input| - pos
  {
    if pos < |input| && input[pos] != c then Find(input, pos + 1, c) else pos
  }

  /** Where the cursor stands after a `while let Some(ch) = self.next_char()`
      loop that stops at index `e`: the character that ends the loop is
      consumed as well, unless the input is exhausted. */
  function Past(input: seq<char>, e: nat): nat
    requires e <= |input|
  {
    if e < |input| then e + 1 else e
  }

  // ---------------------------------------------------------------------
  // What the readers yield
  // ---------------------------------------------------------------------

  /** The token a reader yields (None for no token) and the cursor after it. */
  datatype Step = Step(token: Option<Token>, next: nat)

  /** A step seen through the reader's Rust signature, which does not carry the cursor. */
  function TokenOf(r: Result<Step>): Result<Option<Token>> {
    if r.Ok? then Ok(r.value.token) else Fault(r.message)
  }

  /** The keyword arms of `next_token`, in the order in which they are tried. */
  const Keywords: seq<(string, Token)> := [
    ("ingredient", Token.Ingredient), ("taste", Token.Taste), ("taste_again", Token.TasteAgain),
    ("tasteless", Token.Tasteless), ("layer", Token.Layer), ("simmer", Token.Simmer),
    ("cook", Token.Cook), ("burnt", Token.Burnt), ("serve", Token.Serve),
    ("plate", Token.Plate), ("recipe", Token.Recipe), ("open", Token.Fresh),
    ("close", Token.Spoiled), ("mix", Token.Mix), ("separate", Token.Separate),
    ("is", Token.Is), ("in", Token.In)]

  lemma KeywordsStartWithLetters()
    ensures forall i :: 0 <= i < |Keywords| ==> |Keywords[i].0| > 0 && IsAlphabetic(Keywords[i].0[0])
    ensures forall i :: 0 <= i < |Keywords| ==> !Keywords[i].1.Block? && !Keywords[i].1.StringLiteral?
  {
  }

  /** `match_keyword`: the alphabetic run at `pos` is scanned by indexing, so
      a run that reaches the end of the input reads past it and panics;
      otherwise the keyword matches when it equals the whole run. */
  function MatchKeywordAt(input: seq<char>, pos: nat, keyword: string): (r: Result<bool>)
    requires pos < |input| && IsAlphabetic(input[pos])
  {
    var e := RunEnd(input, pos, IsAlphabetic);
    if e == |input| then Fault("index out of bounds") else Ok(input[pos..e] == keyword)
  }

  /** The keyword arms from the `i`-th on: an arm is tried only when its
      keyword starts with the current character, and the first arm whose
      keyword matches gives the token. */
  function KeywordFrom(input: seq<char>, pos: nat, i: nat): (r: Result<Step>)
    requires pos < |input| && i <= |Keywords|
    ensures r.Ok? && r.value.token.None? ==> r.value.next == pos
    ensures r.Ok? && r.value.token.Some? ==> pos < r.value.next <= |input|
    ensures r.Ok? && r.value.token.Some? ==> !r.value.token.value.Block? && !r.value.token.value.StringLiteral?
    decreases |Keywords| - i
  {
    if i == |Keywords| then Ok(Step(None, pos))
    else
      KeywordsStartWithLetters();
      var (keyword, token) := Keywords[i];
      if keyword[0] != input[pos] then KeywordFrom(input, pos, i + 1)
      else
        match MatchKeywordAt(input, pos, keyword)
        case Fault(m) => Fault(m)
        case Ok(matched) =>
          if matched then Ok(Step(Some(token), RunEnd(input, pos, IsAlphabetic)))
          else KeywordFrom(input, pos, i + 1)
  }

  /** `parse_number`: the digit run at `pos`. */
  function NumberAt(input: seq<char>, pos: nat): (s: Step)
    requires pos <= |input|
    ensures s.token.Some? <==> pos < |input| && IsDigit(input[pos])
    ensures s.token.Some? ==> s.token.value.Number? && pos < s.next
  {
    var e := RunEnd(input, pos, IsDigit);
    var digits := input[pos..e];
    assert forall k :: 0 <= k < |digits| ==> digits[k] == input[pos + k];
    Step(if e == pos then None else Some(Token.Number(DecimalValue(digits))), Past(input, e))
  }

  /** `parse_identifier`: the alphanumeric run at `pos`. */
  function IdentifierAt(input: seq<char>, pos: nat): (s: Step)
    requires pos <= |input|
    ensures s.token.Some? <==> pos < |input| && IsAlphanumeric(input[pos])
    ensures s.token.Some? ==> s.token.value.Identifier? && pos < s.next
  {
    var e := RunEnd(input, pos, IsAlphanumeric);
    Step(if e == pos then None else Some(Token.Identifier(input[pos..e])), Past(input, e))
  }

  /** The sign `parse_number_array` gives the digit at `j` of a scan that
      started at `start`: negative exactly when the character just before
      it, inside the scan, is a minus sign. */
  function SignedDigit(input: seq<char>, start: nat, j: nat): int
    requires start <= j < |input| && IsDigit(input[j])
  {
    var d: int := DigitValue(input[j]);
    if start < j && input[j - 1] == '-' then -d else d
  }

  /** The elements `parse_number_array` has collected from input[start..k]. */
  function DigitElements(input: seq<char>, start: nat, k: nat): (xs: seq<int>)
    requires start <= k <= |input|
    ensures forall i :: 0 <= i < |xs| ==> -9 <= xs[i] <= 9
    decreases k - start
  {
    if k == start then []
    else
      DigitElements(input, start, k - 1)
      + (if IsDigit(input[k - 1]) then [SignedDigit(input, start, k - 1)] else [])
  }

  /** `parse_number_array`, scanning from `start` up to the first `]`. */
  function NumberArrayAt(input: seq<char>, start: nat): Step
    requires start <= |input|
  {
    var e := Find(input, start, ']');
    Step(Some(Token.ArrayNumber(DigitElements(input, start, e))), Past(input, e))
  }

  /** The three variables of `parse_string_array`: `array`, `is_opened`, `curr_str`. */
  datatype Quoting = Quoting(elements: seq<string>, isOpen: bool, current: string)

  /** One turn of the loop of `parse_string_array` on a character other than `]`. */
  function QuoteStep(q: Quoting, ch: char): Quoting {
    if ch == '"' || (q.isOpen && ch == ',') then
      if q.isOpen then Quoting(q.elements + [q.current], false, []) else Quoting(q.elements, true, q.current)
    else if q.isOpen then Quoting(q.elements, true, q.current + [ch])
    else q
  }

  /** Number of occurrences of `c` in `s`. */
  function Count(s: seq<char>, c: char): nat {
    if s == [] then 0 else Count(s[..|s| - 1], c) + (if s[|s| - 1] == c then 1 else 0)
  }

  /** The loop state of `parse_string_array` after reading input[start..k].
      No element and no pending text holds a quote or a comma (nor a `]`,
      when the text read has none), and every element, like the pending
      one, was opened by a quote. */
  function QuoteFold(input: seq<char>, start: nat, k: nat): (q: Quoting)
    requires start <= k <= |input|
    ensures forall i :: 0 <= i < |q.elements| ==> '"' !in q.elements[i] && ',' !in q.elements[i]
    ensures '"' !in q.current && ',' !in q.current
    ensures (forall j :: start <= j < k ==> input[j] != ']') ==>
              (forall i :: 0 <= i < |q.elements| ==> ']' !in q.elements[i]) && ']' !in q.current
    ensures !q.isOpen ==> q.current == []
    ensures |q.elements| + (if q.isOpen then 1 else 0) <= Count(input[start..k], '"')
    decreases k - start
  {
    if k == start then Quoting([], false, [])
    else
      var q := QuoteFold(input, start, k - 1);
      assert input[start..k][..k - 1 - start] == input[start..k - 1];
      QuoteStep(q, input[k - 1])
  }

  /** `parse_string_array`, scanning from `start` up to the first `]`. */
  function StringArrayAt(input: seq<char>, start: nat): (s: Step)
    requires start <= |input|
    ensures s.token.Some? && s.token.value.ArrayString?
    ensures forall i :: 0 <= i < |s.token.value.strings| ==>
              var x := s.token.value.strings[i]; '"' !in x && ',' !in x && ']' !in x
  {
    var e := Find(input, start, ']');
    Step(Some(Token.ArrayString(QuoteFold(input, start, e).elements)), Past(input, e))
  }

  /** `parse_array`: it reads the `[` and the character after it, steps back
      one, and hands over to the string reader when that character is a
      quote; otherwise it steps back once more, so that the number reader
      starts on the `[` itself. */
  function ArrayAt(input: seq<char>, pos: nat): (s: Step)
    requires pos <= |input|
    ensures s.next <= |input|
    ensures s.token.Some? ==> pos < s.next
  {
    if pos == |input| then Step(None, pos)
    else if pos + 1 == |input| then Step(None, pos + 1)
    else if input[pos + 1] == '"' then StringArrayAt(input, pos + 1)
    else NumberArrayAt(input, pos)
  }

  /** The two variables of `parse_params`: `params` and `curr_identifier`. */
  datatype ParamScan = ParamScan(params: seq<string>, current: string)

  /** Texts joined with commas in between. */
  function JoinWithCommas(parts: seq<string>): string
    requires |parts| > 0
  {
    if |parts| == 1 then parts[0] else JoinWithCommas(parts[..|parts| - 1]) + [','] + parts[|parts| - 1]
  }

  /** The loop state of `parse_params` after reading input[start..k]: each
      comma closes one parameter. */
  function ParamFold(input: seq<char>, start: nat, k: nat): ParamScan
    requires start <= k <= |input|
    decreases k - start
  {
    if k == start then ParamScan([], [])
    else
      var p := ParamFold(input, start, k - 1);
      if input[k - 1] == ',' then ParamScan(p.params + [p.current], [])
      else ParamScan(p.params, p.current + [input[k - 1]])
  }

  /** A slice is its last character appended to the slice before it. */
  lemma SliceSnoc(s: seq<char>, i: nat, j: nat)
    requires i < j <= |s|
    ensures s[i..j] == s[i..j - 1] + [s[j - 1]]
  {
  }

  /** A comma followed by an empty pending name. */
  lemma JoinEmptyLast(parts: seq<string>)
    requires |parts| > 0
    ensures JoinWithCommas(parts + [[]]) == JoinWithCommas(parts) + [',']
  {
    var longer := parts + [[]];
    assert longer[..|longer| - 1] == parts;
  }

  /** One more character on the pending name. */
  lemma JoinExtendLast(params: seq<string>, current: string, ch: char)
    ensures JoinWithCommas(params + [current + [ch]]) == JoinWithCommas(params + [current]) + [ch]
  {
    var before := params + [current];
    var after := params + [current + [ch]];
    if |params| > 0 {
      assert after[..|after| - 1] == params && before[..|before| - 1] == params;
    }
  }

  /** One character more, as the loop of `parse_params` takes it: a comma
      closes the pending name, any other character extends it. */
  lemma JoinStep(params: seq<string>, current: string, ch: char, joined: string)
    requires JoinWithCommas(params + [current]) == joined
    ensures ch == ',' ==> JoinWithCommas(params + [current] + [[]]) == joined + [ch]
    ensures ch != ',' ==> JoinWithCommas(params + [current + [ch]]) == joined + [ch]
  {
    if ch == ',' {
      JoinEmptyLast(params + [current]);
    } else {
      JoinExtendLast(params, current, ch);
    }
  }

  /** The parameters followed by the pending text, joined with commas, give
      back exactly the text read. */
  lemma {:induction false} ParamFoldJoins(input: seq<char>, start: nat, k: nat)
    requires start <= k <= |input|
    ensures var p := ParamFold(input, start, k); JoinWithCommas(p.params + [p.current]) == input[start..k]
    decreases k - start
  {
    if k > start {
      ParamFoldJoins(input, start, k - 1);
      var p := ParamFold(input, start, k - 1);
      var q := ParamFold(input, start, k);
      JoinStep(p.params, p.current, input[k - 1], input[start..k - 1]);
      SliceSnoc(input, start, k);
      if input[k - 1] == ',' {
        assert q.params + [q.current] == p.params + [p.current] + [[]];
      } else {
        assert q.params + [q.current] == p.params + [p.current + [input[k - 1]]];
      }
    }
  }

  /** No parameter name, and not the pending text, holds a comma. */
  lemma {:induction false} ParamFoldCommaFree(input: seq<char>, start: nat, k: nat)
    requires start <= k <= |input|
    ensures var p := ParamFold(input, start, k);
            (forall i :: 0 <= i < |p.params| ==> ',' !in p.params[i]) && ',' !in p.current
    decreases k - start
  {
    if k > start {
      ParamFoldCommaFree(input, start, k - 1);
    }
  }

  /** One more character read by the loop of `parse_params`. */
  lemma ParamFoldStep(input: seq<char>, start: nat, k: nat)
    requires start <= k < |input|
    ensures var p := ParamFold(input, start, k);
            ParamFold(input, start, k + 1)
            == if input[k] == ',' then ParamScan(p.params + [p.current], []) else ParamScan(p.params, p.current + [input[k]])
  {
  }

  /** `parse_params`: names separated by commas up to the first `]`; a space
      before that `]` panics. */
  function ParamsAt(input: seq<char>, pos: nat): (r: Result<Step>)
    requires pos <= |input|
  {
    var e := Find(input, pos, ']');
    if ' ' in input[pos..e] then Fault("Spaces are not allowed inside params")
    else Ok(Step(Some(Token.ArrayString(ParamFold(input, pos, e).params)), Past(input, e)))
  }

  /** `parse_params` stops at the first `]`, with no space before it. */
  lemma ParamsStopAtBracket(input: seq<char>, start: nat, k: nat)
    requires start <= k < |input| && input[k] == ']'
    requires forall j :: start <= j < k ==> input[j] != ']' && input[j] != ' '
    ensures ParamsAt(input, start) == Ok(Step(Some(Token.ArrayString(ParamFold(input, start, k).params)), k + 1))
  {
    assert Find(input, start, ']') == k;
  }

  /** `parse_params` runs to the end of an input with no `]` and no space. */
  lemma ParamsStopAtEnd(input: seq<char>, start: nat)
    requires start <= |input|
    requires forall j :: start <= j < |input| ==> input[j] != ']' && input[j] != ' '
    ensures ParamsAt(input, start)
            == Ok(Step(Some(Token.ArrayString(ParamFold(input, start, |input|).params)), |input|))
  {
    assert Find(input, start, ']') == |input|;
  }

  /** A space before the first `]` is the fault of `parse_params`. */
  lemma ParamsSpaceFaults(input: seq<char>, start: nat, k: nat)
    requires start <= k < |input| && input[k] == ' '
    requires forall j :: start <= j < k ==> input[j] != ']'
    ensures ParamsAt(input, start) == Fault("Spaces are not allowed inside params")
  {
    var e := Find(input, start, ']');
    assert k < e;
    assert input[start..e][k - start] == ' ';
  }

  /** `parse_space`. */
  function SpaceAt(input: seq<char>, pos: nat): Result<Step>
    requires pos <= |input|
  {
    if pos < |input| then Ok(Step(Some(Space), pos + 1)) else Fault("Cannot advance more")
  }

  /** The text `parse_block` collects: what follows the current character
      up to the first `}`. */
  function BlockText(input: seq<char>, pos: nat): (s: seq<char>)
    requires pos < |input|
    ensures |s| < |input|
  {
    input[pos + 1..Find(input, pos + 1, '}')]
  }

  /** `parse_block`: the collected text is lexed by a fresh lexer. */
  function BlockAt(input: seq<char>, pos: nat): (r: Result<Step>)
    requires pos <= |input|
    ensures r.Ok? ==> pos < r.value.next <= |input|
    ensures r.Ok? ==> r.value.token.Some? && r.value.token.value.Block?
    ensures r.Ok? ==> SpaceFree(r.value.token.value.tokens) && LiteralFree(r.value.token.value.tokens)
    decreases |input|, 0, 0
  {
    if pos == |input| then Fault("Cannot advance more")
    else
      match LexFrom(BlockText(input, pos), 0)
      case Fault(m) => Fault(m)
      case Ok(ts) => Ok(Step(Some(Token.Block(ts)), Past(input, Find(input, pos + 1, '}'))))
  }

  /** `next_token`: the keyword arms first, then the structural characters,
      a digit run, an alphanumeric run; any other character ends the scan. */
  function NextTokenAt(input: seq<char>, pos: nat): (r: Result<Step>)
    requires pos <= |input|
    ensures r.Ok? ==> pos <= r.value.next <= |input|
    ensures r.Ok? && r.value.token.Some? ==> pos < r.value.next
    ensures r.Ok? && r.value.token.Some? && r.value.token.value.Block? ==>
              SpaceFree(r.value.token.value.tokens) && LiteralFree(r.value.token.value.tokens)
    ensures r.Ok? && r.value.token.Some? ==> !r.value.token.value.StringLiteral?
    decreases |input|, 1, 0
  {
    if pos == |input| then Ok(Step(None, pos))
    else
      var keyword := KeywordFrom(input, pos, 0);
      var c := input[pos];
      if keyword.Fault? || keyword.value.token.Some? then keyword
      else if c == '{' then BlockAt(input, pos)
      else if c == '[' then Ok(ArrayAt(input, pos))
      else if c == ' ' then SpaceAt(input, pos)
      else if IsDigit(c) then Ok(NumberAt(input, pos))
      else if IsAlphanumeric(c) then Ok(IdentifierAt(input, pos))
      else Ok(Step(None, pos))
  }

  /** `lex` from `pos`: the tokens up to the first position where no token
      is read, with `Space` tokens dropped; a panic anywhere is a fault. */
  function LexFrom(input: seq<char>, pos: nat): (r: Result<seq<Token>>)
    requires pos <= |input|
    ensures r.Ok? ==> SpaceFree(r.value) && LiteralFree(r.value)
    decreases |input|, 2, |input| - pos
  {
    match NextTokenAt(input, pos)
    case Fault(m) => Fault(m)
    case Ok(step) =>
      if step.token.None? then Ok([])
      else
        match LexFrom(input, step.next)
        case Fault(m) => Fault(m)
        case Ok(rest) =>
          var t := step.token.value;
          if t == Space then Ok(rest)
          else
            assert forall i :: 1 <= i < |[t] + rest| ==> ([t] + rest)[i] == rest[i - 1];
            Ok([t] + rest)
  }

  /** Lexing a whole text, as `Lexer::new(text).lex()` does. */
  function Lex(input: seq<char>): Result<seq<Token>> {
    LexFrom(input, 0)
  }

  /** Tokens already collected in front of the outcome of the rest of a scan. */
  function Prepend(ts: seq<Token>, r: Result<seq<Token>>): Result<seq<Token>> {
    if r.Ok? then Ok(ts + r.value) else r
  }

  /** One turn of the loop of `lex`: a token read at `pos` is kept unless it is a space. */
  lemma LexStep(input: seq<char>, pos: nat, tokens: seq<Token>)
    requires pos <= |input|
    requires NextTokenAt(input, pos).Ok? && NextTokenAt(input, pos).value.token.Some?
    ensures var step := NextTokenAt(input, pos).value;
            var t := step.token.value;
            Prepend(tokens, LexFrom(input, pos))
            == Prepend(if t == Space then tokens else tokens + [t], LexFrom(input, step.next))
  {
    var step := NextTokenAt(input, pos).value;
    var t := step.token.value;
    var rest := LexFrom(input, step.next);
    if rest.Ok? && t != Space {
      assert tokens + ([t] + rest.value) == tokens + [t] + rest.value;
    }
  }

  // ---------------------------------------------------------------------
  // The lexer object
  // ---------------------------------------------------------------------

  class Lexer {
    const input: seq<char>
    var position: nat

    ghost predicate Valid()
      reads this
    {
      position <= |input|
    }

    constructor (text: string)
      ensures input == text && position == 0 && Valid()
    {
      input := text;
      position := 0;
    }

    method Lex() returns (r: Result<seq<Token>>)
      requires Valid()
      modifies this
      ensures Valid()
      ensures r == LexFrom(input, old(position))
      decreases |input|, 3
    {
      var tokens: seq<Token> := [];
      assert LexFrom(input, position).Ok? ==> [] + LexFrom(input, position).value == LexFrom(input, position).value;
      while true
        invariant Valid() && old(position) <= position
        invariant LexFrom(input, old(position)) == Prepend(tokens, LexFrom(input, position))
        decreases |input| - position
      {
        ghost var before := position;
        var token := NextToken();
        if token.Ok? && token.value.Some? {
          LexStep(input, before, tokens);
        }
        match token {
          case Fault(m) => return Fault(m);
          case Ok(t) =>
            if t.None? {
              assert tokens + [] == tokens;
              return Ok(tokens);
            }
            if t.value != Space {
              tokens := tokens + [t.value];
            }
        }
      }
    }

    method CurrChar() returns (c: Option<char>)
      ensures c == if position < |input| then Some(input[position]) else None
    {
      if |input| <= position {
        return None;
      }
      c := Some(input[position]);
    }

    method NextChar() returns (c: Option<char>)
      requires Valid()
      modifies this
      ensures Valid()
      ensures old(position) == |input| ==> c == None && position == old(position)
      ensures old(position) < |input| ==> c == Some(input[old(position)]) && position == old(position) + 1
    {
      if |input| == position {
        return None;
      }
      c := CurrChar();
      var advanced := Advance(1);
    }

    method Advance(increment: nat) returns (advanced: bool)
      requires Valid()
      modifies this
      ensures Valid()
      ensures advanced <==> old(position) + increment <= |input|
      ensures position == if advanced then old(position) + increment else old(position)
    {
      // the source panics with "Cannot advance more"; callers turn a false into that fault
      advanced := position + increment <= |input|;
      if advanced {
        position := position + increment;
      }
    }

    method NextToken() returns (r: Result<Option<Token>>)
      requires Valid()
      modifies this
      ensures Valid()
      ensures r == TokenOf(NextTokenAt(input, old(position)))
      ensures r.Ok? ==> position == NextTokenAt(input, old(position)).value.next
      decreases |input|, 2
    {
      var ch := CurrChar();
      if ch.None? {
        return Ok(None);
      }
      var c := ch.value;
      KeywordsStartWithLetters();
      // the guarded keyword arms, tried in their order
      var i := 0;
      while i < |Keywords|
        invariant 0 <= i <= |Keywords| && position == old(position)
        invariant KeywordFrom(input, position, 0) == KeywordFrom(input, position, i)
      {
        var (keyword, token) := Keywords[i];
        if keyword[0] == c {
          var matched := MatchKeyword(keyword);
          match matched {
            case Fault(m) =>
              return Fault(m);
            case Ok(b) =>
              if b {
                return Ok(Some(token));
              }
          }
        }
        i := i + 1;
      }
      if c == '{' {
        r := ParseBlock();
      } else if c == '[' {
        var t := ParseArray();
        r := Ok(t);
      } else if c == ' ' {
        r := ParseSpace();
      } else if IsDigit(c) {
        var t := ParseNumber();
        r := Ok(t);
      } else if IsAlphanumeric(c) {
        var t := ParseIdentifier();
        r := Ok(t);
      } else {
        r := Ok(None);
      }
    }

    method MatchKeyword(keyword: string) returns (r: Result<bool>)
      requires Valid() && position < |input| && IsAlphabetic(input[position])
      modifies this
      ensures Valid()
      ensures r == MatchKeywordAt(input, old(position), keyword)
      ensures position == if r == Ok(true) then RunEnd(input, old(position), IsAlphabetic) else old(position)
    {
      var endPos := position;
      while endPos < |input| && IsAlphabetic(input[endPos])
        invariant position <= endPos <= |input|
        invariant RunEnd(input, endPos, IsAlphabetic) == RunEnd(input, position, IsAlphabetic)
      {
        endPos := endPos + 1;
      }
      if endPos == |input| {
        // `self.input[end_pos]` is read one past the end
        return Fault("index out of bounds");
      }
      // the clamp `if end_pos >= self.input.len()` cannot fire at this point
      if input[position..endPos] == keyword {
        position := endPos;
        return Ok(true);
      }
      return Ok(false);
    }

    method ParseNumber() returns (t: Option<Token>)
      requires Valid()
      modifies this
      ensures Valid()
      ensures t == NumberAt(input, old(position)).token && position == NumberAt(input, old(position)).next
    {
      var start := position;
      var number: seq<char> := [];
      while true
        invariant start <= position <= |input|
        invariant number == input[start..position]
        invariant RunEnd(input, position, IsDigit) == RunEnd(input, start, IsDigit)
        decreases |input| - position
      {
        var ch := NextChar();
        if ch.None? || !IsDigit(ch.value) {
          break;
        }
        number := number + [ch.value];
      }
      if number == [] {
        return None;
      }
      t := Some(Token.Number(DecimalValue(number)));
    }

    method ParseIdentifier() returns (t: Option<Token>)
      requires Valid()
      modifies this
      ensures Valid()
      ensures t == IdentifierAt(input, old(position)).token && position == IdentifierAt(input, old(position)).next
    {
      var start := position;
      var identifier: string := [];
      while true
        invariant start <= position <= |input|
        invariant identifier == input[start..position]
        invariant RunEnd(input, position, IsAlphanumeric) == RunEnd(input, start, IsAlphanumeric)
        decreases |input| - position
      {
        var ch := NextChar();
        if ch.None? || !(IsAlphanumeric(ch.value) && ch.value != ' ') {
          break;
        }
        identifier := identifier + [ch.value];
      }
      if identifier == [] {
        return None;
      }
      t := Some(Token.Identifier(identifier));
    }

    method ParseArray() returns (t: Option<Token>)
      requires Valid()
      modifies this
      ensures Valid()
      ensures t == ArrayAt(input, old(position)).token && position == ArrayAt(input, old(position)).next
    {
      var opening := NextChar();
      if opening.None? {
        return None;
      }
      var ch := NextChar();
      if ch.None? {
        return None;
      }
      var valueType := if ch.value == '"' then ValueType.String else ValueType.Number;
      position := position - 1;
      match valueType {
        case String => t := ParseStringArray();
        case Number => t := ParseNumberArray();
      }
    }

    method ParseNumberArray() returns (t: Option<Token>)
      requires Valid() && 0 < position
      modifies this
      ensures Valid()
      ensures t == NumberArrayAt(input, old(position) - 1).token
      ensures position == NumberArrayAt(input, old(position) - 1).next
    {
      var numbers: seq<int> := [];
      var isNegative := false;
      position := position - 1;
      var start := position;
      while true
        invariant start <= position <= |input|
        invariant forall k :: start <= k < position ==> input[k] != ']'
        invariant Find(input, position, ']') == Find(input, start, ']')
        invariant numbers == DigitElements(input, start, position)
        invariant isNegative <==> start < position && input[position - 1] == '-'
        decreases |input| - position
      {
        var ch := NextChar();
        if ch.None? {
          break;
        }
        var c := ch.value;
        if c == ']' {
          break;
        } else if c == '-' {
          isNegative := true;
        } else if IsDigit(c) {
          // the source pushes "-" + c or c and parses it afterwards
          var d: int := DigitValue(c);
          numbers := numbers + [if isNegative then -d else d];
        }
        if c != '-' {
          isNegative := false;
        }
      }
      t := Some(Token.ArrayNumber(numbers));
    }

    method ParseStringArray() returns (t: Option<Token>)
      requires Valid()
      modifies this
      ensures Valid()
      ensures t == StringArrayAt(input, old(position)).token && position == StringArrayAt(input, old(position)).next
    {
      var strings: seq<string> := [];
      var isOpened := false;
      var currStr: string := [];
      var start := position;
      while true
        invariant start <= position <= |input|
        invariant forall k :: start <= k < position ==> input[k] != ']'
        invariant Find(input, position, ']') == Find(input, start, ']')
        invariant Quoting(strings, isOpened, currStr) == QuoteFold(input, start, position)
        decreases |input| - position
      {
        var ch := NextChar();
        if ch.None? {
          break;
        }
        var c := ch.value;
        if c == ']' {
          break;
        } else if c == '"' || (isOpened && c == ',') {
          if isOpened {
            strings := strings + [currStr];
            currStr := [];
          }
          isOpened := !isOpened;
        } else if isOpened {
          currStr := currStr + [c];
        }
      }
      t := Some(Token.ArrayString(strings));
    }

    method ParseBlock() returns (r: Result<Option<Token>>)
      requires Valid()
      modifies this
      ensures Valid()
      ensures r == TokenOf(BlockAt(input, old(position)))
      ensures r.Ok? ==> position == BlockAt(input, old(position)).value.next
      decreases |input|, 1
    {
      var block: string := [];
      var advanced := Advance(1);
      if !advanced {
        return Fault("Cannot advance more");
      }
      var start := position;
      while true
        invariant start <= position <= |input|
        invariant block == input[start..position]
        invariant Find(input, position, '}') == Find(input, start, '}')
        decreases |input| - position
      {
        var ch := NextChar();
        if ch.None? || ch.value == '}' {
          break;
        }
        block := block + [ch.value];
      }
      var lexer := new Lexer(block);
      var tokens :- lexer.Lex();
      r := Ok(Some(Token.Block(tokens)));
    }

    method ParseParams() returns (r: Result<Option<Token>>)
      requires Valid()
      modifies this
      ensures Valid()
      ensures r == TokenOf(ParamsAt(input, old(position)))
      ensures r.Ok? ==> position == ParamsAt(input, old(position)).value.next
    {
      var params: seq<string> := [];
      var currIdentifier: string := [];
      var start := position;
      while true
        invariant start <= position <= |input|
        invariant forall k :: start <= k < position ==> input[k] != ']' && input[k] != ' '
        invariant ParamScan(params, currIdentifier) == ParamFold(input, start, position)
        decreases |input| - position
      {
        var ch := NextChar();
        if ch.None? {
          ParamsStopAtEnd(input, start);
          break;
        }
        var c := ch.value;
        if c == ' ' {
          ParamsSpaceFaults(input, start, position - 1);
          return Fault("Spaces are not allowed inside params");
        } else if c == ']' {
          ParamsStopAtBracket(input, start, position - 1);
          break;
        }
        ParamFoldStep(input, start, position - 1);
        if c == ',' {
          params := params + [currIdentifier];
          currIdentifier := [];
        } else {
          currIdentifier := currIdentifier + [c];
        }
      }
      r := Ok(Some(Token.ArrayString(params)));
    }

    method ParseSpace() returns (r: Result<Option<Token>>)
      requires Valid()
      modifies this
      ensures Valid()
      ensures r == TokenOf(SpaceAt(input, old(position)))
      ensures r.Ok? ==> position == SpaceAt(input, old(position)).value.next
    {
      var advanced := Advance(1);
      if !advanced {
        return Fault("Cannot advance more");
      }
      r := Ok(Some(Space));
    }
  }
}
