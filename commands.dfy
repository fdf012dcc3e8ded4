/** The commands the parser builds (src/commands.rs). */
module Commands {
  import opened Tokens

  datatype Command =
    | Ingredient(identifier: string, value: Token)
    | Taste(identifier1: string, comparison: Token, identifier2: string, tokens: seq<Token>)
    | TasteAgain(condition: bool, tokens: seq<Token>)
    | Tasteless(tokens: seq<Token>)
    | Layer(identifier1: string, comparison: Token, identifier2: string, tokens: seq<Token>)
    | Simmer(identifier: string, arrayIdentifier: string, commands: seq<Command>)
    | Cook(tokens: seq<Token>)
    | Burnt(error: string, tokens: seq<Token>)
    | Serve(identifier: string)
    | Plate(value: Token)
    | Recipe(params: seq<string>, tokens: seq<Token>)
}
