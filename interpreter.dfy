/** The tree-walking interpreter as the source writes it: an object holding one
    Environment, whose visitor methods evaluate in place. Each method is proved to compute
    what Semantics says, so the properties proved there hold of this class. */
module Interpreting {
  import opened Wrappers
  import opened Tokens
  import opened Ast
  import opened Environments
  import opened Semantics

  class Interpreter {
    const environment: Environment
    /** The values `println(stringify(value))` has written, in order. */
    var output: seq<Value>
    /** The errors handed to `Lox.runtimeError`, in order. */
    var reported: seq<RuntimeError>

    constructor ()
      ensures fresh(environment) && environment.values == map[]
      ensures output == [] && reported == []
    {
      environment := new Environment();
      output := [];
      reported := [];
    }

    /** `interpret(statements)`: execute the statements in order; the first runtime error
        ends the `forEach` and is reported once. */
    method Interpret(statements: seq<Stmt>)
      requires forall i :: 0 <= i < |statements| ==> Executable(statements[i])
      modifies this, environment
      ensures var run := Run(statements, old(environment.values));
        && environment.values == run.env
        && output == old(output) + run.output
        && reported == old(reported) + OptionToSeq(run.error)
    {
      for i := 0 to |statements|
        invariant var run := Run(statements[..i], old(environment.values));
          && run.error.None?
          && environment.values == run.env
          && output == old(output) + run.output
          && reported == old(reported)
      {
        var r := Execute(statements[i]);
        assert statements[..i + 1][..i] == statements[..i];
        if r.Err? {
          reported := reported + [r.error];
          assert statements == statements[..i + 1] + statements[i + 1..];
          RunStopsAtFirstError(statements[..i + 1], statements[i + 1..], old(environment.values));
          return;
        }
      }
      assert statements[..|statements|] == statements;
    }

    /** `execute(stmt)`: the three statement visitors. A `print` writes its value; a `var`
        defines its name, as nil when there is no initializer. */
    method Execute(stmt: Stmt) returns (r: Result<(), RuntimeError>)
      requires Executable(stmt)
      modifies this, environment
      ensures var run := Exec(stmt, old(environment.values));
        && environment.values == run.env
        && output == old(output) + run.output
        && (r.Err? <==> run.error.Some?)
        && (r.Err? ==> r.error == run.error.value)
      ensures reported == old(reported)
    {
      match stmt
      case Expression(e) =>
        var _ :- Evaluate(e);
        return Ok(());
      case Print(e) =>
        var value :- Evaluate(e);
        output := output + [value];
        return Ok(());
      case Var(name, initializer) =>
        var value := Nil;
        if initializer.Some? {
          value :- Evaluate(initializer.value);
        }
        environment.Define(name.lexeme, value);
        return Ok(());
    }

    /** `evaluate(expr)`: the expression visitors. */
    method Evaluate(e: Expr) returns (r: Result<Value, RuntimeError>)
      modifies environment
      ensures Evaluated(r, environment.values) == Eval(e, old(environment.values))
      decreases e
    {
      match e
      case Literal(v) =>
        return Ok(v);
      case Grouping(inner) =>
        r := Evaluate(inner);
      case Variable(name) =>
        r := environment.Get(name);
      case Assign(name, rhs) =>
        var value :- Evaluate(rhs);
        var _ :- environment.Assign(name, value);
        return Ok(value);
      case Unary(operator, right) =>
        var operand :- Evaluate(right);
        r := UnaryOp(operator, operand);
      case Binary(left, operator, right) =>
        var leftValue :- Evaluate(left);
        var rightValue :- Evaluate(right);
        r := BinaryOp(operator, leftValue, rightValue);
    }
  }
}
