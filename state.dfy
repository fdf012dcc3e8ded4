/** The variable store of src/state.rs. */
module Store {
  import opened Wrappers
  import ExecCommands

  /** A variable's value: the four kinds of state.rs, plus the function and
      boolean values the interpreter uses. */
  datatype Value =
    | String(text: string)
    | Number(number: int)
    | ArrayString(strings: seq<string>)
    | ArrayNumber(numbers: seq<int>)
    | Function(params: seq<string>, commands: seq<ExecCommands.ExecCommand>)
    | Boolean(boolean: bool)

  /** `get_variable` on a map of bindings. */
  function Lookup(variables: map<string, Value>, name: string): (v: Option<Value>)
    ensures v.Some? <==> name in variables
    ensures v.Some? ==> v.value == variables[name]
  {
    if name in variables then Some(variables[name]) else None
  }

  /** After binding `name`, looking it up gives the new value and every
      other name what it had. */
  lemma BindThenLookup(variables: map<string, Value>, name: string, value: Value, other: string)
    ensures Lookup(variables[name := value], name) == Some(value)
    ensures other != name ==> Lookup(variables[name := value], other) == Lookup(variables, other)
  {
  }

  /** Binding a name twice keeps the later value; the second binding
      reports the first value as the previous one. */
  lemma BindTwice(variables: map<string, Value>, name: string, first: Value, second: Value)
    ensures variables[name := first][name := second] == variables[name := second]
    ensures Lookup(variables[name := first], name) == Some(first)
  {
  }

  class State {
    var variables: map<string, Value>

    /** `new`: no variable is bound. */
    constructor ()
      ensures variables == map[]
      ensures forall name :: Lookup(variables, name) == None
    {
      variables := map[];
    }

    /** `add_variable`: binds `name` and returns its previous value. */
    method AddVariable(name: string, value: Value) returns (previous: Option<Value>)
      modifies this
      ensures variables == old(variables)[name := value]
      ensures previous == Lookup(old(variables), name)
      ensures Lookup(variables, name) == Some(value)
      ensures forall other :: other != name ==> Lookup(variables, other) == Lookup(old(variables), other)
    {
      previous := Lookup(variables, name);
      variables := variables[name := value];
    }

    /** `get_variable`: the lookup that BindThenLookup and BindTwice
        describe; the bindings are left alone. */
    method GetVariable(name: string) returns (v: Option<Value>)
      ensures v == Lookup(variables, name)
    {
      if name in variables {
        return Some(variables[name]);
      }
      return None;
    }
  }
}
