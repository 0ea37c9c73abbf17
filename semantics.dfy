/** What the interpreter computes, as pure functions: the value rules (truthiness, equality,
    operand checks, the operators) and the evaluation of expressions and statements against
    the bindings, threading the bindings through in evaluation order and stopping at the first
    runtime error. The Interpreter class of module Interpreting is proved to compute these. */
module Semantics {
  import opened Wrappers
  import opened Tokens
  import opened Ast
  import opened Environments

  /** `isTruthy`: nil and false are falsy, everything else is truthy. */
  predicate IsTruthy(v: Value) {
    if v.Nil? then false
    else if v.Bool? then v.b
    else true
  }

  /** `isEqual`: nil equals only nil; other values are equal when the same kind of value
      holds the same payload. */
  predicate IsEqual(left: Value, right: Value) {
    if left.Nil? && right.Nil? then true
    else if left.Nil? then false
    else left == right
  }

  /** `checkNumberOperand`: throws unless the operand is a number. */
  function CheckNumberOperand(operator: Token, operand: Value): (r: Result<(), RuntimeError>)
    ensures r.Ok? <==> operand.Num?
    ensures r.Err? ==> r.error == RuntimeError(operator, OperandMustBeNumber)
  {
    if !operand.Num? then Err(RuntimeError(operator, OperandMustBeNumber)) else Ok(())
  }

  /** `checkNumberOperands`: throws unless both operands are numbers. */
  function CheckNumberOperands(operator: Token, left: Value, right: Value): (r: Result<(), RuntimeError>)
    ensures r.Ok? <==> left.Num? && right.Num?
    ensures r.Err? ==> r.error == RuntimeError(operator, OperandsMustBeNumbers)
  {
    if !left.Num? || !right.Num? then Err(RuntimeError(operator, OperandsMustBeNumbers)) else Ok(())
  }

  /** The quotient of two numbers. Division by zero, which gives an infinity or NaN in the
      source's floating point, has no exact value; it is taken to be 0 here. */
  function Quotient(x: real, y: real): real {
    if y == 0.0 then 0.0 else x / y
  }

  /** The `when` of `visitBinaryExpr` once both operands have been evaluated. */
  function BinaryOp(operator: Token, left: Value, right: Value): Result<Value, RuntimeError> {
    var kind := operator.kind;
    if kind == PLUS then
      if left.Num? && right.Num? then Ok(Num(left.n + right.n))
      else if left.Str? && right.Str? then Ok(Str(left.s + right.s))
      else Err(RuntimeError(operator, OperandsMustBeTwoNumbersOrStrings))
    else if kind == MINUS || kind == SLASH || kind == STAR
         || kind == GREATER || kind == GREATER_EQUAL || kind == LESS || kind == LESS_EQUAL then
      var _ :- CheckNumberOperands(operator, left, right);
      var x, y := left.n, right.n;
      Ok(if kind == MINUS then Num(x - y)
         else if kind == SLASH then Num(Quotient(x, y))
         else if kind == STAR then Num(x * y)
         else if kind == GREATER then Bool(x > y)
         else if kind == GREATER_EQUAL then Bool(x >= y)
         else if kind == LESS then Bool(x < y)
         else Bool(x <= y))
    else if kind == BANG_EQUAL then Ok(Bool(!IsEqual(left, right)))
    else if kind == EQUAL_EQUAL then Ok(Bool(IsEqual(left, right)))
    else Ok(Nil)
  }

  /** The `when` of `visitUnaryExpr` once the operand has been evaluated. */
  function UnaryOp(operator: Token, right: Value): Result<Value, RuntimeError> {
    if operator.kind == BANG then Ok(Bool(!IsTruthy(right)))
    else if operator.kind == MINUS then
      var _ :- CheckNumberOperand(operator, right);
      Ok(Num(-right.n))
    else Ok(Nil)
  }

  /** The value of an expression, or the runtime error that stopped it, and the bindings
      after it. */
  datatype Evaluated = Evaluated(result: Result<Value, RuntimeError>, env: Bindings)

  /** `evaluate(expr)`: the visitor's dispatch. Operands are evaluated left to right, each
      in the bindings the previous one left, and an error stops the evaluation at once. */
  function Eval(e: Expr, env: Bindings): Evaluated
    decreases e
  {
    match e
    case Literal(v) => Evaluated(Ok(v), env)
    case Grouping(inner) => Eval(inner, env)
    case Variable(name) => Evaluated(Lookup(env, name), env)
    case Assign(name, rhs) =>
      var ev := Eval(rhs, env);
      if ev.result.Err? then ev
      else
        (match Assigned(ev.env, name, ev.result.value)
         case Err(error) => Evaluated(Err(error), ev.env)
         case Ok(env') => Evaluated(ev.result, env'))
    case Unary(operator, right) =>
      var ev := Eval(right, env);
      if ev.result.Err? then ev
      else Evaluated(UnaryOp(operator, ev.result.value), ev.env)
    case Binary(left, operator, right) =>
      var el := Eval(left, env);
      if el.result.Err? then el
      else
        var er := Eval(right, el.env);
        if er.result.Err? then er
        else Evaluated(BinaryOp(operator, el.result.value, er.result.value), er.env)
  }

  /** What running statements does: the bindings after them, the values printed, and the
      runtime error that stopped them, if any. */
  datatype Executed = Executed(env: Bindings, output: seq<Value>, error: Option<RuntimeError>)

  /** The statements the interpreter can execute: it has no `visitBlockStmt`. */
  predicate Executable(s: Stmt) {
    !s.Block?
  }

  /** `execute(stmt)` for an expression, print or variable statement. */
  function Exec(s: Stmt, env: Bindings): Executed
    requires Executable(s)
  {
    match s
    case Expression(e) =>
      var ev := Eval(e, env);
      Executed(ev.env, [], if ev.result.Err? then Some(ev.result.error) else None)
    case Print(e) =>
      var ev := Eval(e, env);
      if ev.result.Err? then Executed(ev.env, [], Some(ev.result.error))
      else Executed(ev.env, [ev.result.value], None)
    case Var(name, initializer) =>
      if initializer.None? then Executed(Defined(env, name.lexeme, Nil), [], None)
      else
        var ev := Eval(initializer.value, env);
        if ev.result.Err? then Executed(ev.env, [], Some(ev.result.error))
        else Executed(Defined(ev.env, name.lexeme, ev.result.value), [], None)
  }

  /** The `forEach` of `interpret`: each statement in order, stopping at the first runtime
      error. */
  function Run(statements: seq<Stmt>, env: Bindings): Executed
    requires forall i :: 0 <= i < |statements| ==> Executable(statements[i])
    decreases |statements|
  {
    if statements == [] then Executed(env, [], None)
    else
      var before := Run(statements[..|statements| - 1], env);
      if before.error.Some? then before
      else
        var last := Exec(statements[|statements| - 1], before.env);
        Executed(last.env, before.output + last.output, last.error)
  }

  // ---------------------------------------------------------------------------------------
  // Properties

  /** Only nil and false are falsy; in particular 0 and the empty string are truthy. */
  lemma Truthiness(v: Value)
    ensures !IsTruthy(v) <==> v == Nil || v == Bool(false)
  {
  }

  /** Equality is plain equality of values: no value of one kind equals a value of another,
      and `!=` is the negation of `==`. */
  lemma EqualityOperators(operator: Token, left: Value, right: Value)
    ensures IsEqual(left, right) <==> left == right
    ensures operator.kind == EQUAL_EQUAL ==> BinaryOp(operator, left, right) == Ok(Bool(left == right))
    ensures operator.kind == BANG_EQUAL ==> BinaryOp(operator, left, right) == Ok(Bool(left != right))
  {
  }

  /** `+` adds two numbers, concatenates two strings, and throws on any other pair. */
  lemma PlusOperands(operator: Token, left: Value, right: Value)
    requires operator.kind == PLUS
    ensures BinaryOp(operator, left, right).Ok? <==> (left.Num? && right.Num?) || (left.Str? && right.Str?)
    ensures left.Num? && right.Num? ==> BinaryOp(operator, left, right) == Ok(Num(left.n + right.n))
    ensures left.Str? && right.Str? ==> BinaryOp(operator, left, right) == Ok(Str(left.s + right.s))
    ensures BinaryOp(operator, left, right).Err? ==>
      BinaryOp(operator, left, right).error == RuntimeError(operator, OperandsMustBeTwoNumbersOrStrings)
  {
  }

  /** The arithmetic and comparison operators other than `+` throw unless both operands
      are numbers; on numbers each computes its own arithmetic or comparison. */
  lemma NumericOperands(operator: Token, left: Value, right: Value)
    requires operator.kind in {MINUS, SLASH, STAR, GREATER, GREATER_EQUAL, LESS, LESS_EQUAL}
    ensures BinaryOp(operator, left, right).Ok? <==> left.Num? && right.Num?
    ensures BinaryOp(operator, left, right).Err? ==>
      BinaryOp(operator, left, right).error == RuntimeError(operator, OperandsMustBeNumbers)
    ensures BinaryOp(operator, left, right).Ok? ==>
      (BinaryOp(operator, left, right).value.Bool? <==> operator.kind in {GREATER, GREATER_EQUAL, LESS, LESS_EQUAL})
    ensures left.Num? && right.Num? ==> var x, y := left.n, right.n;
      && (operator.kind == MINUS ==> BinaryOp(operator, left, right) == Ok(Num(x - y)))
      && (operator.kind == SLASH ==> BinaryOp(operator, left, right) == Ok(Num(Quotient(x, y))))
      && (operator.kind == STAR ==> BinaryOp(operator, left, right) == Ok(Num(x * y)))
      && (operator.kind == GREATER ==> BinaryOp(operator, left, right) == Ok(Bool(x > y)))
      && (operator.kind == GREATER_EQUAL ==> BinaryOp(operator, left, right) == Ok(Bool(x >= y)))
      && (operator.kind == LESS ==> BinaryOp(operator, left, right) == Ok(Bool(x < y)))
      && (operator.kind == LESS_EQUAL ==> BinaryOp(operator, left, right) == Ok(Bool(x <= y)))
  {
  }

  /** `!` negates truthiness and never throws; `-` negates a number and throws on any other
      operand. */
  lemma UnaryOperands(operator: Token, right: Value)
    ensures operator.kind == BANG ==> UnaryOp(operator, right) == Ok(Bool(!IsTruthy(right)))
    ensures operator.kind == MINUS ==> (UnaryOp(operator, right).Ok? <==> right.Num?)
    ensures operator.kind == MINUS && right.Num? ==> UnaryOp(operator, right) == Ok(Num(-right.n))
    ensures operator.kind == MINUS && !right.Num? ==>
      UnaryOp(operator, right) == Err(RuntimeError(operator, OperandMustBeNumber))
  {
  }

  /** Left before right: an error in the left operand is the binary expression's outcome
      and the right operand is never evaluated; otherwise the right operand is evaluated in
      the bindings the left one left, and its error, if any, comes before any operand check.
      When both succeed the operator is applied to the two values, and the bindings are those
      the right operand left (so `(a = 1) + a` reads the new `a`). */
  lemma LeftBeforeRight(left: Expr, operator: Token, right: Expr, env: Bindings)
    ensures Eval(left, env).result.Err? ==> Eval(Binary(left, operator, right), env) == Eval(left, env)
    ensures Eval(left, env).result.Ok? && Eval(right, Eval(left, env).env).result.Err? ==>
      Eval(Binary(left, operator, right), env) == Eval(right, Eval(left, env).env)
    ensures var el := Eval(left, env); var er := Eval(right, el.env);
      el.result.Ok? && er.result.Ok? ==>
        Eval(Binary(left, operator, right), env) == Evaluated(BinaryOp(operator, el.result.value, er.result.value), er.env)
  {
  }

  /** An assignment yields the assigned value and rebinds only its own name; assigning to
      an unbound name fails with the undefined-variable error and binds nothing. */
  lemma AssignmentExpression(name: Token, rhs: Expr, env: Bindings)
    requires Eval(rhs, env).result.Ok?
    ensures var ev := Eval(rhs, env);
      && (name.lexeme in ev.env ==>
            Eval(Assign(name, rhs), env) == Evaluated(ev.result, ev.env[name.lexeme := ev.result.value]))
      && (name.lexeme !in ev.env ==>
            Eval(Assign(name, rhs), env) == Evaluated(Err(RuntimeError(name, UndefinedVariable)), ev.env))
  {
  }

  /** Evaluating an expression never creates or removes a binding: only `var` statements
      do, so an assignment can never introduce a variable. */
  lemma {:induction false} EvalKeepsNames(e: Expr, env: Bindings)
    ensures Eval(e, env).env.Keys == env.Keys
    decreases e
  {
    match e
    case Literal(_) =>
    case Variable(_) =>
    case Grouping(inner) => EvalKeepsNames(inner, env);
    case Assign(_, rhs) => EvalKeepsNames(rhs, env);
    case Unary(_, right) => EvalKeepsNames(right, env);
    case Binary(left, _, right) =>
      EvalKeepsNames(left, env);
      EvalKeepsNames(right, Eval(left, env).env);
  }

  /** A variable statement binds its name to the initializer's value, or to nil when it
      has none, overwriting any earlier binding. */
  lemma VarStatement(name: Token, initializer: Option<Expr>, env: Bindings)
    ensures initializer.None? ==> Exec(Var(name, initializer), env) == Executed(env[name.lexeme := Nil], [], None)
    ensures initializer.Some? && Eval(initializer.value, env).result.Ok? ==>
      var ev := Eval(initializer.value, env);
      Exec(Var(name, initializer), env) == Executed(ev.env[name.lexeme := ev.result.value], [], None)
  {
  }

  /** Interpretation stops at the first runtime error: whatever follows a list that fails
      neither runs nor prints, and the bindings are those at the error. */
  lemma {:induction false} RunStopsAtFirstError(first: seq<Stmt>, rest: seq<Stmt>, env: Bindings)
    requires forall i :: 0 <= i < |first| ==> Executable(first[i])
    requires forall i :: 0 <= i < |rest| ==> Executable(rest[i])
    requires Run(first, env).error.Some?
    ensures Run(first + rest, env) == Run(first, env)
    decreases |rest|
  {
    if rest == [] {
      assert first + rest == first;
    } else {
      var whole := first + rest;
      assert whole[..|whole| - 1] == first + rest[..|rest| - 1];
      RunStopsAtFirstError(first, rest[..|rest| - 1], env);
    }
  }
}
