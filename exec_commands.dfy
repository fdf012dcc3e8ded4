/** The command shape src/interpreter.rs destructures. It differs from
    src/commands.rs: an ingredient carries a token list (a maths
    expression when there is more than one), a layer carries its two
    operands, and a recipe carries a name and a parsed body. */
module ExecCommands {
  import opened Tokens

  datatype ExecCommand =
    | Ingredient(identifier: string, values: seq<Token>)
    | Plate(value: Token)
    | Layer(leftValue: Token, rightValue: Token, comparison: Token, commands: seq<ExecCommand>)
    | Simmer(identifier: string, arrayIdentifier: string, commands: seq<ExecCommand>)
    | Recipe(identifier: string, params: seq<string>, commands: seq<ExecCommand>)
    | Maths(values: seq<Token>)
      /** Any of the remaining variants, which `execute` rejects. */
    | Other
}
