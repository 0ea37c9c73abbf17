/** The parser as the source writes it: an object holding the token list and a `current`
    index, whose productions advance the index and throw on a syntax error. Each method is
    proved to compute exactly the function of ParseSpec with the same name, started from the
    state the method is called in, so the facts proved about ParseSpec hold of this class. */
module Parsing {
  import opened Wrappers
  import opened Tokens
  import Ast
  import opened ParseSpec

  /** The source's private `ParseError` exception. It carries nothing: the diagnostic has
      already been reported when it is thrown. */
  datatype ParseException = ParseException

  /** What a production hands back: its node, or the exception unwinding through it. */
  type Outcome<T> = Result<T, ParseException>

  class Parser {
    const tokens: seq<Token>
    var current: nat
    /** The diagnostics this parser has handed to `Lox.error`, in order. */
    var errors: seq<ParseError>

    /** The part of the object that parsing changes, as ParseSpec's cursor. */
    ghost function State(): Cursor
      reads this
    {
      Cursor(current, errors)
    }

    /** The token list ends with EOF and `current` indexes into it. */
    ghost predicate Valid()
      reads this
    {
      InBounds(tokens, State())
    }

    /** A returned node or a thrown exception, together with the state after it, as the
        `Parsed` value ParseSpec describes it by. */
    ghost function Result<T>(r: Outcome<T>): Parsed<T>
      reads this
    {
      if r.Ok? then Done(r.value, State()) else Failed(State())
    }

    constructor (tokens: seq<Token>)
      requires EndsWithEof(tokens)
      ensures this.tokens == tokens && State() == Cursor(0, [])
      ensures Valid()
    {
      this.tokens := tokens;
      current := 0;
      errors := [];
    }

    /** `parse()`: declarations until EOF, keeping those that did not fail. On a fresh
        parser the result is `ParseSpec.Parse(tokens)`. */
    method Parse() returns (statements: seq<Ast.Stmt>)
      requires Valid()
      modifies this
      ensures Valid()
      ensures Done(statements, State()) == ParseFrom(tokens, old(State()), [])
    {
      statements := [];
      while !IsAtEnd()
        invariant Valid()
        invariant ParseFrom(tokens, State(), statements) == ParseFrom(tokens, old(State()), [])
        decreases |tokens| - current
      {
        ghost var before, collected := State(), statements;
        var stmt := Declaration();
        if stmt.Some? {
          statements := statements + [stmt.value];
        }
        assert statements == collected + OptionToSeq(stmt);
        assert ParseFrom(tokens, before, collected) == ParseFrom(tokens, State(), statements);
      }
    }

    /** `declaration()`: the `try` block, and on a thrown `ParseError` a resynchronization
        and no statement. */
    method Declaration() returns (stmt: Option<Ast.Stmt>)
      requires Valid()
      modifies this
      ensures Valid()
      ensures Done(stmt, State()) == ParseDeclaration(tokens, old(State()))
      decreases |tokens| - current, 3
    {
      var r: Outcome<Ast.Stmt>;
      var isVar := Match([VAR]);
      if isVar {
        r := VarDeclaration();
      } else {
        r := Statement();
      }
      if r.Err? {
        Synchronize();
        return None;
      }
      return Some(r.value);
    }

    /** `statement()`. */
    method Statement() returns (r: Outcome<Ast.Stmt>)
      requires Valid()
      modifies this
      ensures Valid()
      ensures Result(r) == ParseStatement(tokens, old(State()))
      decreases |tokens| - current, 1
    {
      var isPrint := Match([PRINT]);
      if isPrint {
        r := PrintStatement();
        return;
      }
      var isBlock := Match([LEFT_BRACE]);
      if isBlock {
        var body :- Block();
        return Ok(Ast.Block(body));
      }
      r := ExpressionStatement();
    }

    /** `printStatement()`. */
    method PrintStatement() returns (r: Outcome<Ast.Stmt>)
      requires Valid()
      modifies this
      ensures Valid()
      ensures Result(r) == ParsePrintStatement(tokens, old(State()))
    {
      var value :- Expression();
      var _ :- Consume(SEMICOLON, ExpectValueSemicolon);
      return Ok(Ast.Print(value));
    }

    /** `varDeclaration()`. */
    method VarDeclaration() returns (r: Outcome<Ast.Stmt>)
      requires Valid()
      modifies this
      ensures Valid()
      ensures Result(r) == ParseVarDeclaration(tokens, old(State()))
    {
      var name :- Consume(IDENTIFIER, ExpectVariableName);
      var initializer: Option<Ast.Expr> := None;
      var hasInitializer := Match([EQUAL]);
      if hasInitializer {
        var e :- Expression();
        initializer := Some(e);
      }
      var _ :- Consume(SEMICOLON, ExpectDeclarationSemicolon);
      return Ok(Ast.Var(name, initializer));
    }

    /** `expressionStatement()`. */
    method ExpressionStatement() returns (r: Outcome<Ast.Stmt>)
      requires Valid()
      modifies this
      ensures Valid()
      ensures Result(r) == ParseExpressionStatement(tokens, old(State()))
    {
      var expr :- Expression();
      var _ :- Consume(SEMICOLON, ExpectExpressionSemicolon);
      return Ok(Ast.Expression(expr));
    }

    /** `block()`, entered after `{`. */
    method Block() returns (r: Outcome<seq<Ast.Stmt>>)
      requires Valid()
      modifies this
      ensures Valid()
      ensures Result(r) == BlockFrom(tokens, old(State()), [])
      decreases |tokens| - current, 4
    {
      var statements := [];
      while !Check(RIGHT_BRACE) && !IsAtEnd()
        invariant Valid() && old(current) <= current
        invariant BlockFrom(tokens, State(), statements) == BlockFrom(tokens, old(State()), [])
        decreases |tokens| - current
      {
        ghost var before, collected := State(), statements;
        var stmt := Declaration();
        if stmt.Some? {
          statements := statements + [stmt.value];
        }
        assert statements == collected + OptionToSeq(stmt);
        assert BlockFrom(tokens, before, collected) == BlockFrom(tokens, State(), statements);
      }
      var _ :- Consume(RIGHT_BRACE, ExpectRightBrace);
      return Ok(statements);
    }

    /** `expression()`. */
    method Expression() returns (r: Outcome<Ast.Expr>)
      requires Valid()
      modifies this
      ensures Valid()
      ensures Result(r) == ParseExpression(tokens, old(State()))
      decreases |tokens| - current, 16
    {
      r := Assignment();
    }

    /** `assignment()`: after `=`, the right-hand side is parsed first; a target that is not
        a variable is reported at the `=` but not thrown. */
    method Assignment() returns (r: Outcome<Ast.Expr>)
      requires Valid()
      modifies this
      ensures Valid()
      ensures Result(r) == ParseAssignment(tokens, old(State()))
      decreases |tokens| - current, 15
    {
      var expr :- BinaryLevel(Equality);
      var isAssignment := Match([EQUAL]);
      if isAssignment {
        var equals := Previous();
        var value :- Assignment();
        if expr.Variable? {
          return Ok(Ast.Assign(expr.name, value));
        }
        var _ := Error(equals, InvalidAssignmentTarget);
      }
      return Ok(expr);
    }

    /** The body shared by `equality()`, `comparison()`, `addition()` and
        `multiplication()`, which differ only in their operators and operand. */
    method BinaryLevel(level: Level) returns (r: Outcome<Ast.Expr>)
      requires Valid()
      modifies this
      ensures Valid()
      ensures Result(r) == ParseBinary(level, tokens, old(State()))
      decreases |tokens| - current, 3 * Rank(level) + 2
    {
      var expr :- Operand(level);
      ghost var before := State();
      var more := Match(Operators(level));
      while more
        invariant Valid() && InBounds(tokens, before) && old(current) <= before.pos
        invariant more == Matches(tokens, before, Operators(level))
        invariant State() == if more then ParseSpec.Advance(tokens, before) else before
        invariant BinaryTail(level, tokens, before, expr) == ParseBinary(level, tokens, old(State()))
        decreases |tokens| - before.pos
      {
        var operator := Previous();
        var right :- Operand(level);
        expr := Ast.Binary(expr, operator, right);
        before := State();
        more := Match(Operators(level));
      }
      return Ok(expr);
    }

    /** The operand of a binary level: the next tighter level, or `unary()` below
        `multiplication()`. */
    method Operand(level: Level) returns (r: Outcome<Ast.Expr>)
      requires Valid()
      modifies this
      ensures Valid()
      ensures Result(r) == ParseOperand(level, tokens, old(State()))
      decreases |tokens| - current, 3 * Rank(level)
    {
      match level
      case Equality => r := BinaryLevel(Comparison);
      case Comparison => r := BinaryLevel(Addition);
      case Addition => r := BinaryLevel(Multiplication);
      case Multiplication => r := Unary();
    }

    /** `unary()`. */
    method Unary() returns (r: Outcome<Ast.Expr>)
      requires Valid()
      modifies this
      ensures Valid()
      ensures Result(r) == ParseUnary(tokens, old(State()))
      decreases |tokens| - current, 2
    {
      var isPrefix := Match([BANG, MINUS]);
      if isPrefix {
        var operator := Previous();
        var right :- Unary();
        return Ok(Ast.Unary(operator, right));
      }
      r := Primary();
    }

    /** `primary()`. */
    method Primary() returns (r: Outcome<Ast.Expr>)
      requires Valid()
      modifies this
      ensures Valid()
      ensures Result(r) == ParsePrimary(tokens, old(State()))
      decreases |tokens| - current, 1
    {
      var m := Match([FALSE]);
      if m {
        return Ok(Ast.Literal(Bool(false)));
      }
      m := Match([TRUE]);
      if m {
        return Ok(Ast.Literal(Bool(true)));
      }
      m := Match([NIL]);
      if m {
        return Ok(Ast.Literal(Nil));
      }
      m := Match([NUMBER, STRING]);
      if m {
        return Ok(Ast.Literal(Previous().literal));
      }
      m := Match([IDENTIFIER]);
      if m {
        return Ok(Ast.Variable(Previous()));
      }
      m := Match([LEFT_PAREN]);
      if m {
        var expr :- Expression();
        var _ :- Consume(RIGHT_PAREN, ExpectRightParen);
        return Ok(Ast.Grouping(expr));
      }
      var e := Error(Peek(), ExpectExpression);
      return Err(e);
    }

    /** `match(types...)`: try the kinds in order and advance past the first that checks. */
    method Match(kinds: seq<TokenType>) returns (matched: bool)
      requires Valid()
      modifies this
      ensures Valid() && errors == old(errors)
      ensures matched == Matches(tokens, old(State()), kinds)
      ensures current == if matched then old(current) + 1 else old(current)
    {
      for i := 0 to |kinds|
        invariant current == old(current) && errors == old(errors)
        invariant forall j :: 0 <= j < i ==> !Check(kinds[j])
      {
        if Check(kinds[i]) {
          Advance();
          return true;
        }
      }
      return false;
    }

    /** `consume(type, message)`: the expected token, or a thrown error reported at
        `peek()`. */
    method Consume(kind: TokenType, message: ParseMessage) returns (r: Outcome<Token>)
      requires Valid()
      modifies this
      ensures Valid()
      ensures Result(r) == ParseSpec.Consume(tokens, old(State()), kind, message)
    {
      if Check(kind) {
        Advance();
        return Ok(Previous());
      }
      var e := Error(Peek(), message);
      return Err(e);
    }

    /** `check(type)`: never true at EOF. */
    predicate Check(kind: TokenType)
      reads this
      requires current < |tokens|
    {
      !IsAtEnd() && Peek().kind == kind
    }

    /** `advance()`: move on unless at EOF. The source returns `previous()` as well, which
        the callers that need it read themselves. */
    method Advance()
      requires Valid()
      modifies this
      ensures Valid() && errors == old(errors)
      ensures State() == ParseSpec.Advance(tokens, old(State()))
    {
      if !IsAtEnd() {
        current := current + 1;
      }
    }

    predicate IsAtEnd()
      reads this
      requires current < |tokens|
    {
      Peek().kind == EOF
    }

    function Peek(): Token
      reads this
      requires current < |tokens|
    {
      tokens[current]
    }

    function Previous(): Token
      reads this
      requires 0 < current <= |tokens|
    {
      tokens[current - 1]
    }

    /** `error(token, message)`: report the diagnostic and hand back the exception for the
        caller to throw, or not. */
    method Error(token: Token, message: ParseMessage) returns (e: ParseException)
      modifies this
      ensures current == old(current)
      ensures State() == Report(old(State()), token, message)
    {
      errors := errors + [ParseError(token, message)];
      return ParseException;
    }

    /** `synchronize()`: discard the current token, then skip until just after a `;`, just
        before a keyword that starts a statement, or EOF. */
    method Synchronize()
      requires Valid()
      modifies this
      ensures Valid()
      ensures State() == ParseSpec.Synchronize(tokens, old(State()))
    {
      Advance();
      while !IsAtEnd()
        invariant Valid() && (AtEnd(tokens, State()) || 0 < current)
        invariant SyncLoop(tokens, State()) == ParseSpec.Synchronize(tokens, old(State()))
        decreases |tokens| - current
      {
        if Previous().kind == SEMICOLON {
          return;
        }
        if IsStatementStart(Peek().kind) {
          return;
        }
        Advance();
      }
    }
  }
}
