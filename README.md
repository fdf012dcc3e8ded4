# biryani in Dafny

This project is a Dafny model of the pipeline of **biryani**, a small
cooking-themed toy language. Source text is scanned into tokens
(`src/lexer.rs`). The tokens are parsed into commands by recursive descent
(`src/parser.rs`). The commands are then run by a tree-walking interpreter
(`src/interpreter.rs`) over a variable store (`src/state.rs`). The
supporting types of `src/tokens.rs`, `src/commands.rs` and `src/utils.rs`
become datatypes.

Each of the four core files changes its state step by step, so each is
modelled in two layers:

- **Functions** on values give the meaning of every operation. Examples:
  `Lexing.NextTokenAt(input, pos)`, `Parsing.CommandAt(tokens, pos)`,
  `Interpreting.Run(commands, i, machine, fuel)`.
- **Classes** have the source's own fields: `Lexer`, `Parser`, `State` and
  `Interpreter`. Their methods follow the source's control flow: the same
  loops and the same branches, except where "Left out" says otherwise. Each method is proved to agree
  with the function that gives its meaning, and the properties are proved
  as lemmas about those functions.

How the source's failure modes are modelled:

- A `panic!` becomes `Fault(message)` in the lexer and parser and
  `Panicked(message)` in the interpreter. This includes the implicit panics:
  an index read past the end, and division by zero.
- Rust's `?` on an `Option` becomes a `None` result.

The interpreter destructures a different command shape from the one in
`src/commands.rs`, so the two are modelled separately:

- `Commands.Command` is the parser's shape.
- `ExecCommands.ExecCommand` is the shape the interpreter matches on.
- `Tokens.Token` carries the `Maths(op)` variant the interpreter uses.
- `Store.Value` carries the `Function` and `Boolean` variants the interpreter
  uses.

A `layer` loop need not terminate, so the interpreter's functions and
methods take a fuel bound:

- Each `layer` iteration costs one unit.
- When no fuel is left, the outcome is `OutOfFuel`.
- `InterpreterProperties.RunFuel` proves that a run which does not run out
  of fuel ends the same way with any amount of fuel at least as large.

Where the source differs from a natural reading of the language, the model
follows the code:

- `5 - 2 - 1` evaluates to 2. The running result starts at 0 with a pending
  `+`, and each operator applies to the value before it.
- `2 + 3 * 4` evaluates to 20, because there is no precedence.
- `plate` of an unbound name prints nothing and carries on; it does not
  fail.
- A `layer` whose operand is unbound ends silently.
- A keyword whose letters run to the very end of the input reads one
  character past the end, which is a fault. For example, lexing `plate` on
  its own faults.
- The lexer never produces a string literal. So taste, layer, cook and
  recipe never parse from lexed text. `ParserProperties.LexThenParse` proves
  that lexed text yields only ingredient, serve, plate and simmer commands.
- `parse_params` is never reached from `next_token`. It drops the name after
  the last comma; `LexerProperties.ParamsDropLastName` states this.

## Model

| member | source | states |
|---|---|---|
| Lexing.RunEnd | src/lexer.rs:73-77 | the scan stops at the end of the maximal run of characters of the class: every character before it is in the class and the one at the stop is not |
| Lexing.Find | src/lexer.rs:178-190 | the position of the first occurrence of the character at or after the cursor, or the end of the input when there is none |
| Lexing.KeywordsStartWithLetters | src/lexer.rs:47-63 | every keyword of the guard table begins with a letter, and no keyword token is a block or a string literal |
| Lexing.KeywordFrom | src/lexer.rs:47-63 | the keyword arms either leave the cursor in place with no token, or yield a keyword token with the cursor moved forward inside the input |
| Lexing.NumberAt | src/lexer.rs:88-101 | a number token is read exactly when the cursor is at a digit, and the cursor then moves forward |
| Lexing.IdentifierAt | src/lexer.rs:103-116 | an identifier is read exactly when the cursor is at a letter or digit, and the cursor then moves forward |
| Lexing.DigitElements | src/lexer.rs:132-156 | every element of a number array lies between -9 and 9 |
| Lexing.QuoteFold | src/lexer.rs:158-176 | the quote toggle: no collected element holds a quote or a comma, the pending text is empty whenever the flag is off, and there are no more elements than quotes read |
| Lexing.StringArrayAt | src/lexer.rs:158-176 | a string array is always produced, and none of its elements holds a quote, comma or `]` |
| Lexing.ArrayAt | src/lexer.rs:118-130 | reading an array stays inside the input and moves the cursor forward when it yields a token |
| Lexing.ParamFoldJoins | src/lexer.rs:195-206 | the names collected, followed by the pending name, joined with commas are exactly the text read |
| Lexing.ParamFoldCommaFree | src/lexer.rs:198-204 | no name collected, and not the pending name, holds a comma |
| Lexing.ParamsStopAtBracket | src/lexer.rs:195-204 | the scan ends at the first `]` when no space comes before it, keeping the names closed by a comma, with the cursor just past the `]` |
| Lexing.ParamsStopAtEnd | src/lexer.rs:195-207 | with no `]` and no space in the rest of the input, the scan runs to the end of the input |
| Lexing.ParamsSpaceFaults | src/lexer.rs:197-198 | a space before the first `]` is a fault |
| Lexing.BlockAt | src/lexer.rs:178-190 | a block token is produced past the cursor, and its tokens hold no space and no string literal at any depth |
| Lexing.NextTokenAt | src/lexer.rs:43-71 | the cursor never moves back, moves forward whenever a token is yielded, and no token read is a string literal |
| Lexing.LexFrom | src/lexer.rs:16-24 | the tokens `lex` returns hold no space token and no string literal at any depth |
| Lexing.LexStep | src/lexer.rs:16-24 | one turn of the loop of `lex`: the token read is kept exactly when it is not a space, and the rest is lexed from where it ended |
| Lexing.Lexer.constructor | src/lexer.rs:9-14 | the lexer starts at position 0 of its input |
| Lexing.Lexer.Lex | src/lexer.rs:16-24 | the loop returns exactly the non-space tokens read one after the other until none is read, or the first fault |
| Lexing.Lexer.NextChar | src/lexer.rs:34-41 | at the end of the input, none and the cursor stays; otherwise the character at the cursor, and the cursor moves by exactly one |
| Lexing.Lexer.Advance | src/lexer.rs:215-221 | the cursor moves by the increment exactly when that stays inside the input, and is unchanged otherwise |
| Lexing.Lexer.NextToken | src/lexer.rs:43-71 | the guarded keyword arms in their order, then the block, array, space, number and identifier readers, agree with `NextTokenAt` in both token and cursor |
| Lexing.Lexer.MatchKeyword | src/lexer.rs:73-86 | agrees with `MatchKeywordAt`; the cursor lands at the end of the alphabetic run exactly when the keyword matched, and stays otherwise |
| Lexing.Lexer.ParseNumber | src/lexer.rs:88-101 | agrees with `NumberAt` in token and cursor: the digit run and the character after it are consumed |
| Lexing.Lexer.ParseIdentifier | src/lexer.rs:103-116 | agrees with `IdentifierAt` in token and cursor: the alphanumeric run and the character after it are consumed |
| Lexing.Lexer.ParseArray | src/lexer.rs:118-130 | agrees with `ArrayAt` in token and cursor: the character after `[` selects a string or a number array |
| Lexing.Lexer.ParseNumberArray | src/lexer.rs:132-156 | the loop with its minus-sign flag agrees with `NumberArrayAt` from the `[`, in token and cursor |
| Lexing.Lexer.ParseStringArray | src/lexer.rs:158-176 | the loop with its quote flag agrees with `StringArrayAt`, in token and cursor |
| Lexing.Lexer.ParseBlock | src/lexer.rs:178-190 | agrees with `BlockAt`: the text up to the first `}` is lexed by a fresh lexer and becomes the block's tokens |
| Lexing.Lexer.ParseParams | src/lexer.rs:192-208 | agrees with `ParamsAt`: names are split at commas up to the first `]`, and a space among them is a fault |
| Lexing.Lexer.ParseSpace | src/lexer.rs:210-213 | agrees with `SpaceAt` in token and cursor |
| LexerProperties.RunEndIsMaximalRun | src/lexer.rs:73-77 | any position that bounds a run of the class from the cursor, with a character outside the class after it, is where the scan stops |
| LexerProperties.KeywordTokensDistinct | src/lexer.rs:47-63 | the keyword arms yield pairwise different tokens |
| LexerProperties.KeywordTextsDistinct | src/lexer.rs:47-63 | the keyword texts are pairwise different |
| LexerProperties.KeywordArm | src/lexer.rs:47-63 | one arm: skipped when its keyword starts with another character, a fault when the run reaches the end of the input, its token when the run equals the keyword, the next arm otherwise |
| LexerProperties.KeywordFaults | src/lexer.rs:47-63 | the arms fault exactly when the alphabetic run reaches the end of the input and a remaining keyword starts with the current character |
| LexerProperties.KeywordTokenIsRun | src/lexer.rs:47-63 | a token from the arms is that of a keyword equal to the whole run, with the cursor at the run's end and a character after it |
| LexerProperties.KeywordFirstMatch | src/lexer.rs:47-63 | the first keyword equal to a run that a character follows is the one taken |
| LexerProperties.KeywordFromCases | src/lexer.rs:47-63 | the keyword arms fault exactly when the alphabetic run reaches the end of the input and some keyword starts with the current letter; a token they yield is that of a keyword equal to the whole run; the first keyword equal to the run is the one taken |
| LexerProperties.KeywordIsWholeRun | src/lexer.rs:73-86 | a keyword token stands for the whole alphabetic run at the cursor, and a character follows that run |
| LexerProperties.KeywordTokensAreKeywordsOnly | src/lexer.rs:47-68 | no keyword token is a block, array, space, number or identifier, so only the keyword arms yield keyword tokens |
| LexerProperties.WholeRunIsKeyword | src/lexer.rs:73-86 | a whole alphabetic run that is followed by a character and equals a keyword is read as that keyword |
| LexerProperties.KeywordRunAtEndFaults | src/lexer.rs:75-77 | a run that starts like a keyword and reaches the end of the input is a fault |
| LexerProperties.KeywordTokenTextIsAlphabetic | src/lexer.rs:47-63 | when a keyword is read, every character of its text is a letter |
| LexerProperties.NeverTasteAgain | src/lexer.rs:48-49 | `taste_again` is never produced, because `taste` is tried first and the underscore ends the run |
| LexerProperties.LexNeverTasteAgain | src/lexer.rs:16-24 | no lexed token list holds `TasteAgain` |
| LexerProperties.NoKeywordAt | src/lexer.rs:47-63 | when no keyword starts with the current character, the keyword arms yield nothing and leave the cursor |
| LexerProperties.NotAKeyword | src/lexer.rs:73-86 | a run that is followed by a character and equals no keyword yields no keyword token: `index` is no `in` |
| LexerProperties.NumberIsMaximalDigitRun | src/lexer.rs:88-101 | the number read is the decimal value of the maximal digit run, and the cursor ends one past it, or at the end of the input |
| LexerProperties.IdentifierIsMaximalAlphanumericRun | src/lexer.rs:103-116 | the identifier read is the maximal alphanumeric run, and the cursor ends one past it, or at the end of the input |
| LexerProperties.DigitPositions | src/lexer.rs:132-156 | lists, in increasing order, exactly the positions of the digit characters in the range |
| LexerProperties.ElementsFollowDigits | src/lexer.rs:132-156 | a number array has one element per digit character, in order: the digit's value, negated when a minus sign directly precedes it |
| LexerProperties.NumberArrayRunsToBracket | src/lexer.rs:118-156 | `[` followed by something other than a quote is read as a number array running to the first `]`, or to the end of the input when there is none |
| LexerProperties.StringArrayElementsClean | src/lexer.rs:118-130 | `[` followed by a quote is read as a string array whose elements hold no quote, comma or `]` |
| LexerProperties.BlockIsLexOfBracedText | src/lexer.rs:178-190 | a block is the lexing of the text strictly between `{` and the first `}` after it, so blocks do not nest and hold no space token |
| LexerProperties.ParamsDropLastName | src/lexer.rs:192-208 | `a,b]` gives the single parameter `a`: a name is kept only when a comma follows it |
| LexerProperties.LexUnfold | src/lexer.rs:16-24 | a non-space token read at the cursor is the head of what `lex` returns from there |
| LexerProperties.LexCons | src/lexer.rs:16-24 | a non-space token read at the cursor, followed by the lexing of the rest, is the lexing from the cursor |
| LexerProperties.LexSkipsSpace | src/lexer.rs:66 | a space is read as a space token one character long, which `lex` drops |
| LexerProperties.LexAtEnd | src/lexer.rs:44 | at the end of the input `lex` returns nothing more |
| LexerProperties.FindIsFirst | src/lexer.rs:181-186 | a position before which the character does not occur from the start, and which holds it or is the end, is what `Find` returns |
| LexerProperties.KeywordStep | src/lexer.rs:47-63 | a keyword's text followed by a non-letter is read as that keyword, with the cursor at the end of the text |
| LexerProperties.IdentifierStep | src/lexer.rs:68 | an alphanumeric run that starts with a letter no keyword starts with is read as an identifier |
| LexerProperties.NonKeywordIdentifierStep | src/lexer.rs:47-68 | an alphanumeric run starting with any letter, whose alphabetic prefix is followed by a character and is no keyword, is read as one identifier of the whole run, the cursor one past it |
| LexerExamples.PlateThenNumber | src/lexer.rs:47-67 | `plate1` lexes as `Plate, Number(1)` |
| LexerExamples.TasteAgainStopsAtUnderscore | src/lexer.rs:48-69 | `taste_again` lexes as `Taste` alone: lexing stops at the underscore |
| LexerExamples.IndexIsIdentifier | src/lexer.rs:62-68 | `index ` lexes as the identifier `index` |
| LexerExamples.KeywordAtEndOfInputFaults | src/lexer.rs:75-77 | lexing `plate` alone faults |
| LexerExamples.ThreeDigitArray | src/lexer.rs:132-156 | `[2,3,4]` lexes as the number array 2, 3, 4 |
| LexerExamples.TwoDigitNumberIsTwoElements | src/lexer.rs:132-156 | `[12]` lexes as the number array 1, 2 |
| LexerExamples.BodyLexes | src/lexer.rs:16-24 | ` plate n ` lexes as `Plate, Identifier(n)` |
| LexerExamples.ProgramLexes | src/main.rs:14 | the program of `main` lexes to ingredient, abc, is, [2,3,4], plate, abc, simmer, n, in, abc and a block of plate, n |
| Parsing.NextTokenAt | src/parser.rs:211-218 | the token at the cursor, consumed, or none at the end, where the cursor stays |
| Parsing.ExpectBlockAt | src/parser.rs:135-141 | a block's tokens exactly when the next token is a block; the token is consumed either way |
| Parsing.ExpectIngredientAt | src/parser.rs:143-149 | succeeds exactly on `ingredient`; the token is consumed either way |
| Parsing.ExpectIdentifierAt | src/parser.rs:151-157 | an identifier's name exactly when the next token is one; the token is consumed either way |
| Parsing.ExpectValueAt | src/parser.rs:159-168 | succeeds exactly on a number array, string array, number or string literal, unchanged; the token is consumed either way |
| Parsing.ExpectComparisonAt | src/parser.rs:170-181 | succeeds exactly on one of the six comparison tokens; the token is consumed either way |
| Parsing.ExpectTokenAt | src/parser.rs:183-192 | succeeds exactly when the next token equals the expected one; the token is consumed either way |
| Parsing.ExpectStringLiteralAt | src/parser.rs:194-199 | succeeds exactly on a string literal; the token is consumed either way |
| Parsing.ExpectParamsAt | src/parser.rs:201-206 | a string array's strings exactly when the next token is one; the token is consumed either way |
| Parsing.IngredientAt | src/parser.rs:39-45 | a command exactly on `ingredient x is v` with v a value token, giving `Ingredient(x, v)` and consuming four tokens |
| Parsing.GuardAt | src/parser.rs:47-83 | the shared head of taste and layer: keyword, identifier, comparison, identifier and string literal, exactly, consuming five tokens |
| Parsing.TasteAt | src/parser.rs:47-64 | a taste command consumes exactly five tokens |
| Parsing.LayerAt | src/parser.rs:66-83 | a layer command consumes exactly five tokens |
| Parsing.CookAt | src/parser.rs:100-109 | a cook command needs `cook` and a string literal, whose lexing becomes its tokens |
| Parsing.ServeAt | src/parser.rs:111-115 | a command exactly on `serve x` with x an identifier |
| Parsing.PlateAt | src/parser.rs:117-121 | a command on `plate` followed by any token, which is kept unchecked |
| Parsing.RecipeAt | src/parser.rs:123-133 | a recipe needs `recipe`, a string array of parameters and a string literal, whose lexing becomes its tokens |
| Parsing.SimmerAt | src/parser.rs:85-98 | a simmer needs `simmer x in a` and a block, and consumes five tokens |
| Parsing.CommandAt | src/parser.rs:24-37 | a command consumes at least two tokens; at the end or at a token that leads no production nothing is read and the cursor stays |
| Parsing.ParseFrom | src/parser.rs:16-22 | parsing stops inside the tokens, never before where it began |
| Parsing.ParseStep | src/parser.rs:16-22 | one turn of the loop of `parse`: the command read is appended, and parsing goes on from where it ended |
| Parsing.Parser.constructor | src/parser.rs:9-14 | the parser starts at position 0 of its tokens |
| Parsing.Parser.Parse | src/parser.rs:16-22 | the loop returns the commands `ParseFrom` gives, and stops where it says |
| Parsing.Parser.ParseToken | src/parser.rs:24-37 | the leading token selects the production, as `CommandAt` says |
| Parsing.Parser.ParseIngredient | src/parser.rs:39-45 | agrees with `IngredientAt` in command and cursor |
| Parsing.Parser.ParseTaste | src/parser.rs:47-64 | agrees with `TasteAt`; the string literal is lexed by a fresh lexer |
| Parsing.Parser.ParseLayer | src/parser.rs:66-83 | agrees with `LayerAt`; the string literal is lexed by a fresh lexer |
| Parsing.Parser.ParseSimmer | src/parser.rs:85-98 | agrees with `SimmerAt`; the block is parsed by a fresh parser |
| Parsing.Parser.ParseCook | src/parser.rs:100-109 | agrees with `CookAt` |
| Parsing.Parser.ParseServe | src/parser.rs:111-115 | agrees with `ServeAt` |
| Parsing.Parser.ParsePlate | src/parser.rs:117-121 | agrees with `PlateAt` |
| Parsing.Parser.ParseRecipe | src/parser.rs:123-133 | agrees with `RecipeAt` |
| Parsing.Parser.ExpectBlock | src/parser.rs:135-141 | agrees with `ExpectBlockAt`; the cursor moves by one unless at the end |
| Parsing.Parser.ExpectIngredient | src/parser.rs:143-149 | agrees with `ExpectIngredientAt` |
| Parsing.Parser.ExpectIdentifier | src/parser.rs:151-157 | agrees with `ExpectIdentifierAt` |
| Parsing.Parser.ExpectValue | src/parser.rs:159-168 | agrees with `ExpectValueAt` |
| Parsing.Parser.ExpectComparison | src/parser.rs:170-181 | agrees with `ExpectComparisonAt` |
| Parsing.Parser.ExpectToken | src/parser.rs:183-192 | agrees with `ExpectTokenAt` |
| Parsing.Parser.ExpectStringLiteral | src/parser.rs:194-199 | agrees with `ExpectStringLiteralAt` |
| Parsing.Parser.ExpectParams | src/parser.rs:201-206 | agrees with `ExpectParamsAt` |
| Parsing.Parser.NextToken | src/parser.rs:211-218 | moves the cursor by exactly one when a token exists and returns it; returns none without moving otherwise |
| Parsing.Parser.Advance | src/parser.rs:219-221 | the cursor moves by one |
| ParserProperties.TasteShape | src/parser.rs:47-64 | taste yields a command exactly on its shape, carrying the two names, the comparison and the lexing of the literal; a literal that does not lex is a fault |
| ParserProperties.LayerShape | src/parser.rs:66-83 | the same for layer under its own keyword |
| ParserProperties.CookShape | src/parser.rs:100-109 | cook yields a command exactly on `cook` and a string literal, carrying the literal's lexing |
| ParserProperties.RecipeShape | src/parser.rs:123-133 | recipe yields a command exactly on `recipe`, a string array and a string literal |
| ParserProperties.SimmerShape | src/parser.rs:85-98 | simmer yields a command exactly on its shape, whose body is the parse of the block's tokens |
| ParserProperties.ChainIsKept | src/parser.rs:16-22 | commands already read stay in front of what the rest of the parse yields, in input order |
| ParserProperties.ParseIsMaximalChain | src/parser.rs:16-37 | a parse is a chain of commands, one after the other, ending at a position where no command is read |
| ParserProperties.StopsAtNonLeading | src/parser.rs:24-37 | parsing stops at once, with no command, at a token that leads no production |
| ParserProperties.CommandsTakeTwoTokens | src/parser.rs:39-133 | every command takes at least two tokens |
| ParserProperties.LexedCommand | src/parser.rs:24-37 | on tokens without string literals a production never faults, and a command it reads is an ingredient, serve, plate or simmer |
| ParserProperties.LexedTokensParse | src/parser.rs:16-133 | tokens without string literals parse without a fault, into ingredient, serve, plate and simmer commands only |
| ParserProperties.LexThenParse | src/lexer.rs:16-24 | lexing and then parsing any text either faults in the lexer or yields only ingredient, serve, plate and simmer commands |
| ParserProperties.ParseCons | src/parser.rs:16-22 | a command read at the cursor, followed by the parse of the rest, is the parse from the cursor |
| ParserExamples.BodyParses | src/parser.rs:117-121 | the block's tokens `plate n` parse as one plate command |
| ParserExamples.ProgramParses | src/parser.rs:16-98 | the tokens of the `main` program parse as `Ingredient(abc, [2,3,4])`, `Plate(abc)` and `Simmer(n, abc, [Plate(n)])` |
| ParserExamples.ProgramFromText | src/main.rs:14 | lexing and then parsing the `main` program gives those three commands |
| Store.BindThenLookup | src/state.rs:14-20 | after binding a name, looking it up gives the new value, and every other name keeps its binding |
| Store.BindTwice | src/state.rs:14-16 | binding a name twice leaves the later value, and the second binding sees the first as the previous one |
| Store.State.constructor | src/state.rs:8-12 | a new store binds no name |
| Store.State.AddVariable | src/state.rs:14-16 | binds the name, returns its previous value (none when unbound), and leaves every other name alone |
| Store.State.GetVariable | src/state.rs:18-20 | agrees with the lookup that BindThenLookup and BindTwice describe, and leaves the store unchanged |
| Interpreting.Apply | src/interpreter.rs:66-72 | applying the pending operator fails exactly when it is a division or a remainder and the operand is zero |
| Interpreting.EvalMaths | src/interpreter.rs:50-81 | the value of a maths expression, when there is one, is a number |
| Interpreting.PrefixStops | src/interpreter.rs:56-77 | once the loop has stopped, through an unbound operand or a panic, every later token leaves that outcome unchanged |
| Interpreting.CompareDefined | src/interpreter.rs:137-143 | each of the six comparison tokens yields a result, hotter/cooler/same/hot-or-same/cool-or-same/not-same as greater, less, equal, at least, at most and unequal |
| Interpreting.CompareRejects | src/interpreter.rs:144 | every other token is the invalid-comparison panic |
| Interpreting.Interpreter.constructor | src/interpreter.rs:15-19 | a fresh store with no bindings, and nothing printed |
| Interpreting.Interpreter.Execute | src/interpreter.rs:21-48 | the loop over the commands agrees with `Run` in status, bindings and output |
| Interpreting.Interpreter.ExecuteMaths | src/interpreter.rs:50-81 | the accumulator loop agrees with `EvalMaths`, and the bindings are only read |
| Interpreting.Interpreter.ExecuteMathsToken | src/interpreter.rs:54-78 | one turn of the maths loop agrees with `MathsToken` |
| Interpreting.Interpreter.ExecuteIngredient | src/interpreter.rs:83-102 | on a fault or a missing maths value nothing changes; otherwise the name is bound to the value and its previous binding returned |
| Interpreting.Interpreter.ResolveOperand | src/interpreter.rs:113-136 | a layer operand read from the current bindings, as `Operand` says |
| Interpreting.Interpreter.ExecuteLayer | src/interpreter.rs:104-153 | the loop, reading both operands again on every turn, agrees with `LayerLoop` |
| Interpreting.Interpreter.ExecuteSimmer | src/interpreter.rs:155-178 | the array is read once and each element bound before a run of the body, as `SimmerStep` says |
| Interpreting.Interpreter.PrintedValue | src/interpreter.rs:181-217 | the value selected for printing, as `PlateValue` says: the bound value of a name, none for an unbound name, the literal itself, or a panic for any other token |
| Interpreting.Interpreter.ExecutePlate | src/interpreter.rs:180-220 | appends the printed value as `PlateStep` says, and leaves the bindings alone |
| Interpreting.Interpreter.ExecuteRecipe | src/interpreter.rs:222-230 | binds the name to the function of its parameters and body, and returns the previous binding |
| InterpreterProperties.LayerIteration | src/interpreter.rs:146-147 | when the condition holds and fuel remains, the body runs and the loop goes on only after it completes |
| InterpreterProperties.LayerNoIteration | src/interpreter.rs:112-149 | when the condition is false, unreadable or a panic, the loop ends at once, the same with any fuel |
| InterpreterProperties.RunFuel | src/interpreter.rs:21-48 | a run that does not run out of fuel ends the same way with any larger fuel |
| InterpreterProperties.StepFuel | src/interpreter.rs:21-48 | the same for one command |
| InterpreterProperties.LayerFuel | src/interpreter.rs:104-153 | the same for a layer loop |
| InterpreterProperties.SimmerStepFuel | src/interpreter.rs:155-178 | the same for a simmer |
| InterpreterProperties.SimmerLoopFuel | src/interpreter.rs:163-174 | the same for the iterations of a simmer |
| InterpreterProperties.TruncDivision | src/interpreter.rs:70-71 | division rounds toward zero: the quotient times the divisor plus the remainder is the dividend, the remainder is smaller than the divisor in magnitude and has the dividend's sign |
| InterpreterProperties.NegativeDividend | src/interpreter.rs:70-71 | -7 / 2 is -3 and -7 % 2 is -1; 7 / -2 is -3 and 7 % -2 is 1 |
| InterpreterProperties.PrefixOfLonger | src/interpreter.rs:53-79 | tokens after the first k do not affect the first k turns of the loop |
| InterpreterProperties.FoldIsLeftNested | src/interpreter.rs:50-81 | after an alternating expression the accumulator holds its left-nested value and the last operator |
| InterpreterProperties.MathsIsLeftNested | src/interpreter.rs:50-81 | an alternating expression evaluates to its left-nested reading: strictly left to right, no precedence |
| InterpreterProperties.MathsPrefixStep | src/interpreter.rs:53-79 | one more turn of the loop processes the next token |
| InterpreterProperties.FiveMinusTwoMinusOne | src/interpreter.rs:50-81 | `5 - 2 - 1` is 2 |
| InterpreterProperties.NoPrecedence | src/interpreter.rs:50-81 | `2 + 3 * 4` is 20 |
| InterpreterProperties.SingleOperand | src/interpreter.rs:51-67 | a lone number, or a lone name bound to a number, is its own value |
| InterpreterProperties.OperandsInARow | src/interpreter.rs:65-72 | two operands in a row reuse the pending operator: `a b` is a + b, `5 - 2 1` is 2 |
| InterpreterProperties.UnboundOperandGivesNothing | src/interpreter.rs:56-57 | an unbound name gives no value, whatever follows it |
| InterpreterProperties.NonNumberOperandPanics | src/interpreter.rs:58-61 | a name bound to a non-number panics |
| InterpreterProperties.InvalidTokenPanics | src/interpreter.rs:74-77 | a token that is neither operand nor operator panics |
| InterpreterProperties.ZeroDivisorPanics | src/interpreter.rs:70-71 | dividing or taking the remainder by a zero operand panics |
| InterpreterProperties.IngredientFrame | src/interpreter.rs:83-102 | ingredient changes the binding of its name and nothing else, prints nothing, completes exactly when its value has no fault, and changes nothing when the maths has no value |
| InterpreterProperties.IngredientValues | src/interpreter.rs:84-101 | a single value token binds the value it denotes, any other single token panics, more than one token binds the maths result, and no token is an index fault |
| InterpreterProperties.PlateEmits | src/interpreter.rs:180-220 | plate leaves the bindings alone, prints exactly one value for a literal or a bound name and none for an unbound name, and panics on every other token |
| InterpreterProperties.PlatePanics | src/interpreter.rs:181-217 | plate panics exactly on a token that is neither a name nor a literal |
| InterpreterProperties.PlateValueFaults | src/interpreter.rs:181-217 | the value plate selects is a panic exactly for a token that is neither a name nor a literal |
| InterpreterProperties.PlatePrints | src/interpreter.rs:180-220 | plate prints either nothing or exactly the selected value, prints something exactly when a value is selected, selects a name's binding if bound, and keeps the bindings |
| InterpreterProperties.RecipeBinds | src/interpreter.rs:222-230 | recipe binds its name to the function value of its parameters and body |
| InterpreterProperties.RunShift | src/interpreter.rs:21-48 | running from inside the second of two joined lists is running that list |
| InterpreterProperties.RunConcatFrom | src/interpreter.rs:21-48 | running two joined lists from a point in the first is running the first and, only when it completes, the second |
| InterpreterProperties.RunConcat | src/interpreter.rs:21-48 | commands run strictly in order: the second list runs only when the first completes, from where it left off |
| InterpreterProperties.InvalidCommandPanics | src/interpreter.rs:45 | a variant the interpreter does not handle panics, and nothing after it runs |
| InterpreterProperties.LayerStops | src/interpreter.rs:112-150 | the loop ends with nothing changed when the condition is false or missing, or the left operand is an unbound name; it panics when the left operand is neither a number nor a name, and when two numbers meet a token that is no comparison |
| InterpreterProperties.LayerWithoutProgress | src/interpreter.rs:112-151 | `layer a cooler 3 { plate a }` with a = 0 prints 0 once per unit of fuel and never ends |
| InterpreterProperties.IncrementRuns | src/interpreter.rs:83-87 | `ingredient a is a + 1` with a bound to k completes, binding a to k + 1 and printing nothing |
| InterpreterProperties.LayerCountsUp | src/interpreter.rs:112-151 | `layer a cooler limit { ingredient a is a + 1 }` ends with a equal to the limit: the operands are read again on every turn |
| InterpreterProperties.RunKeeps | src/interpreter.rs:21-48 | commands that never bind a name leave its binding as it was, however they end |
| InterpreterProperties.StepKeeps | src/interpreter.rs:21-48 | the same for one command |
| InterpreterProperties.LayerKeeps | src/interpreter.rs:104-153 | the same for a layer loop |
| InterpreterProperties.SimmerStepKeeps | src/interpreter.rs:155-178 | the same for a simmer over another loop variable |
| InterpreterProperties.SimmerLoopKeeps | src/interpreter.rs:163-174 | the same for its iterations |
| InterpreterProperties.SimmerLoopEndsOnLast | src/interpreter.rs:163-174 | after the iterations, a loop variable the body never binds holds the last element |
| InterpreterProperties.SimmerLeavesLastElement | src/interpreter.rs:155-178 | after a completed simmer over a non-empty array whose body never binds the loop variable, the variable holds the last element |
| InterpreterProperties.ElementsOfArray | src/interpreter.rs:163-174 | the loop variable takes one value per element, in order: numbers for a number array, strings for a string array |
| InterpreterProperties.PlateEachFrom | src/interpreter.rs:163-174 | plating the loop variable prints every remaining element once, in order |
| InterpreterProperties.SimmerPlatesEach | src/interpreter.rs:155-178 | `simmer x in a { plate x }` prints each element once, in order, and leaves x bound to the last one |
| InterpreterProperties.SimmerOnOtherValues | src/interpreter.rs:161-175 | an unbound array does nothing; a value that is no array panics |
| InterpreterExamples.MainProgramRuns | src/main.rs:14 | the `main` program prints [2,3,4], then 2, 3 and 4, and leaves n bound to 4 |
| InterpreterExamples.LayerProgramNeverEnds | src/interpreter.rs:104-153 | `ingredient a is 0` then `layer a cooler 3 { plate a }` never completes, printing 0 on every turn |
| InterpreterExamples.SimmerOverNumberPanics | src/interpreter.rs:175 | a simmer over a number panics before anything is printed |
| InterpreterExamples.PlateUnboundPrintsNothing | src/interpreter.rs:182-183 | plating an unbound name prints nothing and the run carries on |

## Left out

- The `println!` formatting of `execute_plate` and the debug dumps of `src/main.rs` are left out. Output is the sequence of printed values.
- The Unicode character classes of Rust are left out. Digits, letters and alphanumerics are their ASCII subsets.
- `isize` overflow in arithmetic is left out, and so is the overflow panic of `parse().unwrap()` on a long digit run. Numbers are unbounded integers.
- `src/main.rs` is left out except as a source of its program text. It is only a driver: it reads nothing, and hands the parser's `Command` values to an interpreter that expects another shape.
- No translation from the parser's commands to the interpreter's commands is modelled, because the source has none. Its two shapes do not fit each other.
- Taste, taste again, tasteless, cook, burnt, serve and function calls have no interpreter semantics. They are the `Other` variant, which panics.
- The unbounded `loop` of `execute_layer` is modelled with fuel. A run that needs more iterations than the fuel allows ends with `OutOfFuel`, and what it would do after that point is not modelled.
- Interpreting.Interpreter.ExecuteSimmer: the source has two `for` loops, one per array kind. The model runs one loop over the element values the array converts to, so the loop variable is bound to the same values in the same order.
- Lexing.Lexer.Advance: an advance past the end panics in the source. The model reports it as `false`, and leaves the cursor unchanged. Every caller advances only over a character that is there.
- Parsing.TasteAt: its own contract states only the command kind and the five tokens consumed. The full shape is stated by ParserProperties.TasteShape.
- Parsing.LayerAt: its own contract states only the command kind and the five tokens consumed. The full shape is stated by ParserProperties.LayerShape.
- Lexing.Lexer.NextToken: the seventeen guarded keyword arms of `next_token` are one `while` loop over the `Keywords` table, in the same order. This differs in form, not in outcome: the loop is proved equal to trying the arms one after the other.
- Lexing.Lexer.MatchKeyword: the scan loop stops at the end of the input and then reports the out-of-bounds panic explicitly, where the source's loop indexes past the end. The clamp to the last index is not written, because it cannot fire once the scan ends inside the input. This differs in form, not in outcome.
