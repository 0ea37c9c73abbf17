/** The syntax tree. Each Kotlin data class becomes a constructor; the visitors' `accept`
    dispatch becomes an exhaustive `match` in the consumers (Semantics, Printer). Datatype
    values are immutable finite trees with structural equality, as the data classes are. */
module Ast {
  import opened Wrappers
  import opened Tokens

  datatype Expr =
    | Assign(name: Token, value: Expr)
    | Grouping(expression: Expr)
    | Binary(left: Expr, operator: Token, right: Expr)
    | Variable(name: Token)
    | Unary(operator: Token, right: Expr)
    | Literal(literal: Value)

  datatype Stmt =
    | Block(statements: seq<Stmt>)
    | Print(expression: Expr)
    | Expression(expression: Expr)
    | Var(name: Token, initializer: Option<Expr>)
}
