/** Runtime errors and the variable store. The store is one flat map from a variable's name
    to its value; it has no enclosing scope. */
module Environments {
  import opened Wrappers
  import opened Tokens

  /** The messages the interpreter raises, one per kind of failure. */
  datatype RuntimeMessage =
    | UndefinedVariable
    | OperandMustBeNumber
    | OperandsMustBeNumbers
    | OperandsMustBeTwoNumbersOrStrings

  /** A `RuntimeError`: the token where evaluation failed and why. */
  datatype RuntimeError = RuntimeError(token: Token, message: RuntimeMessage) {
    /** The exception's message text; an undefined variable is named by its lexeme. */
    function Text(): (text: string)
      ensures message.UndefinedVariable? ==> text == "Undefined variable '" + token.lexeme + "'."
    {
      match message
      case UndefinedVariable => "Undefined variable '" + token.lexeme + "'."
      case OperandMustBeNumber => "Operand must be a number."
      case OperandsMustBeNumbers => "Operands must be numbers."
      case OperandsMustBeTwoNumbersOrStrings => "Operands must be two numbers or two strings."
    }
  }

  /** The contents of an environment: the `values` map, keyed by lexeme. */
  type Bindings = map<string, Value>

  /** `define(name, value)` on the bindings: insert, or overwrite an existing binding. */
  function Defined(env: Bindings, name: string, value: Value): (r: Bindings)
    ensures name in r && r[name] == value
    ensures r.Keys == env.Keys + {name}
    ensures forall k :: k in env && k != name ==> r[k] == env[k]
  {
    env[name := value]
  }

  /** `get(name)` on the bindings: the value bound to the token's lexeme, or the
      undefined-variable error at that token. */
  function Lookup(env: Bindings, name: Token): (r: Result<Value, RuntimeError>)
    ensures r.Ok? <==> name.lexeme in env
    ensures r.Ok? ==> r.value == env[name.lexeme]
    ensures r.Err? ==> r.error == RuntimeError(name, UndefinedVariable)
  {
    if name.lexeme in env then Ok(env[name.lexeme]) else Err(RuntimeError(name, UndefinedVariable))
  }

  /** `assign(name, value)` on the bindings: replace an existing binding, or fail with the
      undefined-variable error and create none. */
  function Assigned(env: Bindings, name: Token, value: Value): (r: Result<Bindings, RuntimeError>)
    ensures r.Ok? <==> name.lexeme in env
    ensures r.Ok? ==> r.value.Keys == env.Keys && r.value[name.lexeme] == value
    ensures r.Ok? ==> forall k :: k in env && k != name.lexeme ==> r.value[k] == env[k]
    ensures r.Err? ==> r.error == RuntimeError(name, UndefinedVariable)
  {
    if name.lexeme in env then Ok(env[name.lexeme := value]) else Err(RuntimeError(name, UndefinedVariable))
  }

  /** `get` after `define` of the same lexeme yields the defined value, whatever was bound
      before. */
  lemma LookupAfterDefine(env: Bindings, name: Token, value: Value)
    ensures Lookup(Defined(env, name.lexeme, value), name) == Ok(value)
  {
  }

  /** `get` after `assign` of a bound lexeme yields the assigned value; other lexemes are
      unaffected. */
  lemma LookupAfterAssign(env: Bindings, name: Token, value: Value, other: Token)
    requires name.lexeme in env
    ensures Lookup(Assigned(env, name, value).value, name) == Ok(value)
    ensures other.lexeme != name.lexeme ==> Lookup(Assigned(env, name, value).value, other) == Lookup(env, other)
  {
  }

  /** The object the interpreter holds: the one map of bindings, changed in place. */
  class Environment {
    var values: Bindings

    constructor ()
      ensures values == map[]
    {
      values := map[];
    }

    /** `define(name, value)`. */
    method Define(name: string, value: Value)
      modifies this
      ensures values == Defined(old(values), name, value)
    {
      values := values[name := value];
    }

    /** `get(name)`: the bound value, or the thrown undefined-variable error. */
    method Get(name: Token) returns (r: Result<Value, RuntimeError>)
      ensures r == Lookup(values, name)
    {
      if name.lexeme in values {
        return Ok(values[name.lexeme]);
      }
      return Err(RuntimeError(name, UndefinedVariable));
    }

    /** `assign(name, value)`: on success the map is replaced as `Assigned` says; on the
        thrown error it is left as it was. */
    method Assign(name: Token, value: Value) returns (r: Result<(), RuntimeError>)
      modifies this
      ensures r.Ok? <==> Assigned(old(values), name, value).Ok?
      ensures r.Ok? ==> values == Assigned(old(values), name, value).value
      ensures r.Err? ==> values == old(values) && r.error == Assigned(old(values), name, value).error
    {
      if name.lexeme in values {
        values := values[name.lexeme := value];
        return Ok(());
      }
      return Err(RuntimeError(name, UndefinedVariable));
    }
  }
}
