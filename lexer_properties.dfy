/** What the scanner of src/lexer.rs guarantees, stated about the reader
    functions of module Lexing. */
module LexerProperties {
  import opened Wrappers
  import opened Tokens
  import opened Lexing

  predicate StartsWith(w: string, c: char) {
    |w| > 0 && w[0] == c
  }

  /** The run functions are determined by their contract: any stretch of
      `p`-characters that cannot be extended is the run. */
  lemma {:induction false} RunEndIsMaximalRun(input: seq<char>, pos: nat, p: char -> bool, e: nat)
    requires pos <= e <= |input|
    requires forall k :: pos <= k < e ==> p(input[k])
    requires e < |input| ==> !p(input[e])
    ensures RunEnd(input, pos, p) == e
    decreases e - pos
  {
    if pos < e {
      RunEndIsMaximalRun(input, pos + 1, p, e);
    }
  }

  lemma KeywordTokensDistinct()
    ensures forall a, b :: 0 <= a < b < |Keywords| ==> Keywords[a].1 != Keywords[b].1
  {
  }

  lemma KeywordTextsDistinct()
    ensures forall a, b :: 0 <= a < b < |Keywords| ==> Keywords[a].0 != Keywords[b].0
  {
  }

  /** One arm of the keyword match: skipped when its keyword starts with
      another character, a fault when the run reaches the end of the input,
      the keyword's token when the run equals it, else the next arm. */
  lemma KeywordArm(input: seq<char>, pos: nat, i: nat)
    requires pos < |input| && i < |Keywords|
    ensures var e := RunEnd(input, pos, IsAlphabetic);
            KeywordFrom(input, pos, i)
            == if !StartsWith(Keywords[i].0, input[pos]) then KeywordFrom(input, pos, i + 1)
               else if e == |input| then Fault("index out of bounds")
               else if input[pos..e] == Keywords[i].0 then Ok(Step(Some(Keywords[i].1), e))
               else KeywordFrom(input, pos, i + 1)
  {
    KeywordsStartWithLetters();
  }

  /** The keyword arms fault exactly when the alphabetic run reaches the
      end of the input and some remaining keyword starts with the current
      character: that arm's scan reads past the end. */
  lemma {:induction false} KeywordFaults(input: seq<char>, pos: nat, i: nat)
    requires pos < |input| && i <= |Keywords|
    ensures KeywordFrom(input, pos, i).Fault?
            <==> RunEnd(input, pos, IsAlphabetic) == |input|
                 && exists k :: i <= k < |Keywords| && StartsWith(Keywords[k].0, input[pos])
    decreases |Keywords| - i
  {
    if i < |Keywords| {
      KeywordArm(input, pos, i);
      KeywordFaults(input, pos, i + 1);
    }
  }

  /** A token from the keyword arms is that of a remaining keyword equal to
      the whole alphabetic run, and a character follows the run. */
  lemma {:induction false} KeywordTokenIsRun(input: seq<char>, pos: nat, i: nat)
    requires pos < |input| && i <= |Keywords|
    ensures var e := RunEnd(input, pos, IsAlphabetic);
            var r := KeywordFrom(input, pos, i);
            r.Ok? && r.value.token.Some? ==>
              exists k :: i <= k < |Keywords| && Keywords[k].1 == r.value.token.value
                          && Keywords[k].0 == input[pos..e] && r.value.next == e && e < |input|
    decreases |Keywords| - i
  {
    if i < |Keywords| {
      KeywordArm(input, pos, i);
      KeywordTokenIsRun(input, pos, i + 1);
    }
  }

  /** The first remaining keyword equal to a run that a character follows
      is the one taken. */
  lemma {:induction false} KeywordFirstMatch(input: seq<char>, pos: nat, i: nat)
    requires pos < |input| && i <= |Keywords|
    ensures var e := RunEnd(input, pos, IsAlphabetic);
            forall k :: i <= k < |Keywords| && e < |input| && Keywords[k].0 == input[pos..e]
                        && (forall j :: i <= j < k ==> Keywords[j].0 != input[pos..e])
                        ==> KeywordFrom(input, pos, i) == Ok(Step(Some(Keywords[k].1), e))
    decreases |Keywords| - i
  {
    if i < |Keywords| {
      KeywordArm(input, pos, i);
      KeywordFirstMatch(input, pos, i + 1);
    }
  }

  /** The three cases of the keyword arms together. */
  lemma KeywordFromCases(input: seq<char>, pos: nat, i: nat)
    requires pos < |input| && i <= |Keywords|
    ensures var e := RunEnd(input, pos, IsAlphabetic);
            var r := KeywordFrom(input, pos, i);
            && (r.Fault? <==> e == |input| && exists k :: i <= k < |Keywords| && StartsWith(Keywords[k].0, input[pos]))
            && (r.Ok? && r.value.token.Some? ==>
                  exists k :: i <= k < |Keywords| && Keywords[k].1 == r.value.token.value
                              && Keywords[k].0 == input[pos..e] && r.value.next == e && e < |input|)
            && (forall k :: i <= k < |Keywords| && e < |input| && Keywords[k].0 == input[pos..e]
                            && (forall j :: i <= j < k ==> Keywords[j].0 != input[pos..e])
                            ==> r == Ok(Step(Some(Keywords[k].1), e)))
  {
    KeywordFaults(input, pos, i);
    KeywordTokenIsRun(input, pos, i);
    KeywordFirstMatch(input, pos, i);
  }

  /** A keyword token stands for the whole alphabetic run at the cursor,
      and that run is followed by a character: `index` is no `in`, while
      `plate1` starts with `plate`. */
  lemma KeywordIsWholeRun(input: seq<char>, pos: nat, k: nat, next: nat)
    requires pos < |input| && k < |Keywords|
    requires NextTokenAt(input, pos) == Ok(Step(Some(Keywords[k].1), next))
    ensures next == RunEnd(input, pos, IsAlphabetic) && next < |input|
    ensures input[pos..next] == Keywords[k].0
  {
    KeywordsStartWithLetters();
    KeywordTokensDistinct();
    KeywordTokensAreKeywordsOnly();
    KeywordFromCases(input, pos, 0);
    var r := KeywordFrom(input, pos, 0);
    assert r.Ok? && r.value.token.Some?;
    var e := RunEnd(input, pos, IsAlphabetic);
    var j :| 0 <= j < |Keywords| && Keywords[j].1 == r.value.token.value
             && Keywords[j].0 == input[pos..e] && r.value.next == e && e < |input|;
    assert j == k;
  }

  /** No reader other than the keyword arms yields a keyword token. */
  lemma KeywordTokensAreKeywordsOnly()
    ensures forall k :: 0 <= k < |Keywords| ==>
              var t := Keywords[k].1;
              !t.Block? && !t.ArrayNumber? && !t.ArrayString? && t != Space && !t.Number? && !t.Identifier?
  {
  }

  /** Conversely, a whole alphabetic run that is followed by a character
      and equals a keyword is read as that keyword. */
  lemma WholeRunIsKeyword(input: seq<char>, pos: nat, k: nat)
    requires pos < |input| && k < |Keywords|
    requires RunEnd(input, pos, IsAlphabetic) < |input|
    requires input[pos..RunEnd(input, pos, IsAlphabetic)] == Keywords[k].0
    ensures NextTokenAt(input, pos) == Ok(Step(Some(Keywords[k].1), RunEnd(input, pos, IsAlphabetic)))
  {
    KeywordsStartWithLetters();
    KeywordTextsDistinct();
    KeywordFromCases(input, pos, 0);
  }

  /** Keyword recognition at a character that begins some keyword, when
      the alphabetic run reaches the end of the input, reads past the end. */
  lemma KeywordRunAtEndFaults(input: seq<char>, pos: nat, k: nat)
    requires pos < |input| && k < |Keywords| && StartsWith(Keywords[k].0, input[pos])
    requires RunEnd(input, pos, IsAlphabetic) == |input|
    ensures NextTokenAt(input, pos).Fault?
  {
    KeywordFromCases(input, pos, 0);
  }

  /** A keyword token is read only where its whole text stands in the
      input, so the text of a keyword that is ever read is alphabetic. */
  lemma KeywordTokenTextIsAlphabetic(input: seq<char>, pos: nat)
    requires pos <= |input|
    ensures forall k :: 0 <= k < |Keywords| && NextTokenAt(input, pos).Ok?
                        && NextTokenAt(input, pos).value.token == Some(Keywords[k].1) ==>
              forall i :: 0 <= i < |Keywords[k].0| ==> IsAlphabetic(Keywords[k].0[i])
  {
    forall k | 0 <= k < |Keywords| && NextTokenAt(input, pos).Ok? && NextTokenAt(input, pos).value.token == Some(Keywords[k].1)
      ensures forall i :: 0 <= i < |Keywords[k].0| ==> IsAlphabetic(Keywords[k].0[i])
    {
      var next := NextTokenAt(input, pos).value.next;
      KeywordIsWholeRun(input, pos, k, next);
      assert forall i :: 0 <= i < |Keywords[k].0| ==> Keywords[k].0[i] == input[pos + i];
    }
  }

  /** `taste_again` holds an underscore, which ends an alphabetic run, so
      the lexer never yields `TasteAgain`. */
  lemma NeverTasteAgain(input: seq<char>, pos: nat)
    requires pos <= |input|
    ensures NextTokenAt(input, pos).Ok? ==> NextTokenAt(input, pos).value.token != Some(Token.TasteAgain)
  {
    KeywordTokenTextIsAlphabetic(input, pos);
    assert Keywords[2].1 == Token.TasteAgain && !IsAlphabetic(Keywords[2].0[5]);
  }

  /** Lexing never puts `TasteAgain` among the top-level tokens. */
  lemma {:induction false} LexNeverTasteAgain(input: seq<char>, pos: nat)
    requires pos <= |input|
    ensures LexFrom(input, pos).Ok? ==> Token.TasteAgain !in LexFrom(input, pos).value
    decreases |input| - pos
  {
    NeverTasteAgain(input, pos);
    var r := NextTokenAt(input, pos);
    if r.Ok? && r.value.token.Some? {
      LexNeverTasteAgain(input, r.value.next);
    }
  }

  /** A character that begins no keyword is never taken for one. */
  lemma NoKeywordAt(input: seq<char>, pos: nat)
    requires pos < |input|
    requires forall k :: 0 <= k < |Keywords| ==> !StartsWith(Keywords[k].0, input[pos])
    ensures KeywordFrom(input, pos, 0) == Ok(Step(None, pos))
  {
    KeywordsStartWithLetters();
    KeywordFromCases(input, pos, 0);
  }

  /** An alphabetic run followed by a character and equal to no keyword is
      not taken for one. */
  lemma NotAKeyword(input: seq<char>, pos: nat)
    requires pos < |input| && RunEnd(input, pos, IsAlphabetic) < |input|
    requires forall k :: 0 <= k < |Keywords| ==> Keywords[k].0 != input[pos..RunEnd(input, pos, IsAlphabetic)]
    ensures KeywordFrom(input, pos, 0) == Ok(Step(None, pos))
  {
    KeywordFromCases(input, pos, 0);
  }

  /** `parse_number` reads the maximal digit run, plus the character after
      it, and yields its decimal value. */
  lemma NumberIsMaximalDigitRun(input: seq<char>, pos: nat, e: nat)
    requires pos < e <= |input|
    requires forall k :: pos <= k < e ==> IsDigit(input[k])
    requires e < |input| ==> !IsDigit(input[e])
    ensures forall k :: 0 <= k < e - pos ==> IsDigit(input[pos..e][k])
    ensures NumberAt(input, pos) == Step(Some(Token.Number(DecimalValue(input[pos..e]))), Past(input, e))
  {
    RunEndIsMaximalRun(input, pos, IsDigit, e);
  }

  /** `parse_identifier` reads the maximal alphanumeric run, plus the
      character after it. */
  lemma IdentifierIsMaximalAlphanumericRun(input: seq<char>, pos: nat, e: nat)
    requires pos < e <= |input|
    requires forall k :: pos <= k < e ==> IsAlphanumeric(input[k])
    requires e < |input| ==> !IsAlphanumeric(input[e])
    ensures IdentifierAt(input, pos) == Step(Some(Token.Identifier(input[pos..e])), Past(input, e))
  {
    RunEndIsMaximalRun(input, pos, IsAlphanumeric, e);
  }

  /** The indices of the digits in input[start..k], in increasing order. */
  function DigitPositions(input: seq<char>, start: nat, k: nat): (ps: seq<nat>)
    requires start <= k <= |input|
    ensures forall i :: 0 <= i < |ps| ==> start <= ps[i] < k && IsDigit(input[ps[i]])
    ensures forall i, j :: 0 <= i < j < |ps| ==> ps[i] < ps[j]
    ensures forall j :: start <= j < k && IsDigit(input[j]) ==> j in ps
    decreases k - start
  {
    if k == start then []
    else DigitPositions(input, start, k - 1) + (if IsDigit(input[k - 1]) then [k - 1] else [])
  }

  /** A number array holds one element per digit character, in order; the
      element is the digit's value, negated when the character just before
      the digit is a minus sign: `[12]` gives 1 and 2, `[-3]` gives -3. */
  lemma {:induction false} ElementsFollowDigits(input: seq<char>, start: nat, k: nat)
    requires start <= k <= |input|
    ensures |DigitElements(input, start, k)| == |DigitPositions(input, start, k)|
    ensures forall i :: 0 <= i < |DigitPositions(input, start, k)| ==>
              DigitElements(input, start, k)[i] == SignedDigit(input, start, DigitPositions(input, start, k)[i])
    decreases k - start
  {
    if k > start {
      ElementsFollowDigits(input, start, k - 1);
    }
  }

  /** `[` followed by a character other than a quote is read as a number
      array that runs to the first `]`, or to the end of the input when
      there is none. */
  lemma NumberArrayRunsToBracket(input: seq<char>, pos: nat)
    requires pos + 1 < |input| && input[pos] == '[' && input[pos + 1] != '"'
    ensures var e := Find(input, pos, ']');
            NextTokenAt(input, pos) == Ok(Step(Some(Token.ArrayNumber(DigitElements(input, pos, e))), Past(input, e)))
  {
    NoKeywordAt(input, pos);
  }

  /** `[` followed by a quote is read as a string array whose elements
      hold no quote, comma or `]`. */
  lemma StringArrayElementsClean(input: seq<char>, pos: nat)
    requires pos + 1 < |input| && input[pos] == '[' && input[pos + 1] == '"'
    ensures NextTokenAt(input, pos) == Ok(StringArrayAt(input, pos + 1))
    ensures var xs := StringArrayAt(input, pos + 1).token.value.strings;
            forall i :: 0 <= i < |xs| ==> '"' !in xs[i] && ',' !in xs[i] && ']' !in xs[i]
  {
    NoKeywordAt(input, pos);
  }

  /** A block holds the tokens of the text strictly between `{` and the
      first `}` after it (blocks do not nest), with no space token at any
      depth. */
  lemma BlockIsLexOfBracedText(input: seq<char>, pos: nat)
    requires pos < |input| && input[pos] == '{'
    ensures '}' !in BlockText(input, pos)
    ensures var inner := Lex(BlockText(input, pos));
            NextTokenAt(input, pos)
            == if inner.Ok? then Ok(Step(Some(Token.Block(inner.value)), Past(input, Find(input, pos + 1, '}'))))
               else Fault(inner.message)
    ensures Lex(BlockText(input, pos)).Ok? ==> SpaceFree(Lex(BlockText(input, pos)).value)
  {
    NoKeywordAt(input, pos);
  }

  /** `parse_params` pushes a name at each comma only, so the text after the
      last comma is dropped: `a,b]` gives the single parameter `a`. */
  lemma ParamsDropLastName()
    ensures ParamsAt("a,b]", 0) == Ok(Step(Some(Token.ArrayString(["a"])), 4))
  {
    var input := "a,b]";
    assert Find(input, 0, ']') == 3;
    assert ParamFold(input, 0, 1) == ParamScan([], "a");
    assert ParamFold(input, 0, 2) == ParamScan(["a"], []);
    assert ParamFold(input, 0, 3) == ParamScan(["a"], "b");
  }

  /** `lex` keeps a token other than a space in front of the rest of the scan. */
  lemma LexUnfold(input: seq<char>, pos: nat, t: Token, next: nat)
    requires pos <= |input| && t != Space
    requires NextTokenAt(input, pos) == Ok(Step(Some(t), next))
    ensures LexFrom(input, pos) == Prepend([t], LexFrom(input, next))
  {
  }

  /** `lex` from a non-space token: that token in front of the rest. */
  lemma LexCons(input: seq<char>, pos: nat, next: nat, ts: seq<Token>)
    requires pos <= |input| && |ts| > 0 && ts[0] != Space
    requires NextTokenAt(input, pos) == Ok(Step(Some(ts[0]), next))
    requires LexFrom(input, next) == Ok(ts[1..])
    ensures LexFrom(input, pos) == Ok(ts)
  {
    LexUnfold(input, pos, ts[0], next);
    assert [ts[0]] + ts[1..] == ts;
  }

  /** `lex` drops a space and goes on after it. */
  lemma LexSkipsSpace(input: seq<char>, pos: nat)
    requires pos < |input| && input[pos] == ' '
    ensures NextTokenAt(input, pos) == Ok(Step(Some(Space), pos + 1))
    ensures LexFrom(input, pos) == LexFrom(input, pos + 1)
  {
    NoKeywordAt(input, pos);
  }

  /** `lex` at the end of the input yields nothing. */
  lemma LexAtEnd(input: seq<char>)
    ensures LexFrom(input, |input|) == Ok([])
  {
  }

  /** Find gives the first occurrence at or after `pos`. */
  lemma {:induction false} FindIsFirst(input: seq<char>, pos: nat, c: char, e: nat)
    requires pos <= e <= |input|
    requires forall k :: pos <= k < e ==> input[k] != c
    requires e < |input| ==> input[e] == c
    ensures Find(input, pos, c) == e
    decreases e - pos
  {
    if pos < e {
      FindIsFirst(input, pos + 1, c, e);
    }
  }

  /** A keyword standing as a whole alphabetic run that is followed by a
      character is read as that keyword. */
  lemma KeywordStep(input: seq<char>, pos: nat, k: nat)
    requires k < |Keywords| && pos + |Keywords[k].0| < |input|
    requires input[pos..pos + |Keywords[k].0|] == Keywords[k].0
    requires forall j :: pos <= j < pos + |Keywords[k].0| ==> IsAlphabetic(input[j])
    requires !IsAlphabetic(input[pos + |Keywords[k].0|])
    ensures NextTokenAt(input, pos) == Ok(Step(Some(Keywords[k].1), pos + |Keywords[k].0|))
  {
    KeywordsStartWithLetters();
    RunEndIsMaximalRun(input, pos, IsAlphabetic, pos + |Keywords[k].0|);
    WholeRunIsKeyword(input, pos, k);
  }

  /** An alphanumeric run that starts with a letter beginning no keyword is
      read as an identifier. */
  lemma IdentifierStep(input: seq<char>, pos: nat, e: nat)
    requires pos < e <= |input| && IsAlphabetic(input[pos])
    requires forall j :: pos <= j < e ==> IsAlphanumeric(input[j])
    requires e < |input| ==> !IsAlphanumeric(input[e])
    requires forall k :: 0 <= k < |Keywords| ==> !StartsWith(Keywords[k].0, input[pos])
    ensures NextTokenAt(input, pos) == Ok(Step(Some(Token.Identifier(input[pos..e])), Past(input, e)))
  {
    NoKeywordAt(input, pos);
    IdentifierIsMaximalAlphanumericRun(input, pos, e);
  }

  /** Any alphanumeric run that starts with a letter, whose alphabetic
      prefix is followed by a character and equals no keyword, is read as
      an identifier: the keyword letters `i`, `s`, ... included. */
  lemma NonKeywordIdentifierStep(input: seq<char>, pos: nat, e: nat)
    requires pos < e <= |input| && IsAlphabetic(input[pos])
    requires forall j :: pos <= j < e ==> IsAlphanumeric(input[j])
    requires e < |input| ==> !IsAlphanumeric(input[e])
    requires RunEnd(input, pos, IsAlphabetic) < |input|
    requires forall k :: 0 <= k < |Keywords| ==> Keywords[k].0 != input[pos..RunEnd(input, pos, IsAlphabetic)]
    ensures NextTokenAt(input, pos) == Ok(Step(Some(Token.Identifier(input[pos..e])), Past(input, e)))
  {
    NotAKeyword(input, pos);
    IdentifierIsMaximalAlphanumericRun(input, pos, e);
  }
}
