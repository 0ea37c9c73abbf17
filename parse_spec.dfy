/** The recursive-descent parser as pure functions. A parsing function takes the token list
    and a cursor (the position of `current` and the diagnostics reported so far) and either
    returns a node with the cursor after it, or fails with the cursor at the point where the
    parser threw `ParseError` (the diagnostic for it already reported). The Parser class of
    module Parsing is proved to compute exactly these functions. */
module ParseSpec {
  import opened Wrappers
  import opened Tokens
  import opened Ast

  /** The messages the parser reports, one per call site. */
  datatype ParseMessage =
    | ExpectValueSemicolon | ExpectVariableName | ExpectDeclarationSemicolon
    | ExpectExpressionSemicolon | ExpectRightBrace | InvalidAssignmentTarget
    | ExpectRightParen | ExpectExpression

  function ErrorText(m: ParseMessage): string {
    match m
    case ExpectValueSemicolon => "Expect ';' after value."
    case ExpectVariableName => "Expect variable name."
    case ExpectDeclarationSemicolon => "Expected ';' after variable declaration."
    case ExpectExpressionSemicolon => "Expect ';' after expression."
    case ExpectRightBrace => "Expect '}' after block."
    case InvalidAssignmentTarget => "Invalid assignment target."
    case ExpectRightParen => "Expect ')' after expression."
    case ExpectExpression => "Expect expression."
  }

  /** `Lox.error(token, message)` as the parser calls it. */
  datatype ParseError = ParseError(token: Token, message: ParseMessage)

  /** The parser's mutable state: the `current` index and the diagnostics reported so far. */
  datatype Cursor = Cursor(pos: nat, errors: seq<ParseError>)

  /** A production either returns a value and the cursor after it, or throws `ParseError`
      with the cursor where it was thrown. */
  datatype Parsed<+T> = Done(value: T, next: Cursor) | Failed(at: Cursor) {
    function After(): Cursor {
      if Done? then next else at
    }
  }

  /** What the parser needs of its input: a non-empty list whose last token is EOF, as the
      scanner produces it. Without it `peek()` would index past the end. */
  predicate EndsWithEof(toks: seq<Token>) {
    |toks| > 0 && toks[|toks| - 1].kind == EOF
  }

  predicate InBounds(toks: seq<Token>, c: Cursor) {
    EndsWithEof(toks) && c.pos < |toks|
  }

  /** `isAtEnd()`. */
  predicate AtEnd(toks: seq<Token>, c: Cursor)
    requires c.pos < |toks|
  {
    toks[c.pos].kind == EOF
  }

  /** `check(kind)`: never true at EOF. */
  predicate Check(toks: seq<Token>, c: Cursor, kind: TokenType)
    requires c.pos < |toks|
  {
    !AtEnd(toks, c) && toks[c.pos].kind == kind
  }

  /** The test of `match(kinds...)`: some listed kind checks. */
  predicate Matches(toks: seq<Token>, c: Cursor, kinds: seq<TokenType>)
    requires c.pos < |toks|
  {
    !AtEnd(toks, c) && toks[c.pos].kind in kinds
  }

  /** `advance()`: one token forward, except at EOF, so the cursor never leaves the list. */
  function Advance(toks: seq<Token>, c: Cursor): (r: Cursor)
    requires InBounds(toks, c)
    ensures InBounds(toks, r) && r.errors == c.errors
    ensures AtEnd(toks, c) ==> r == c
    ensures !AtEnd(toks, c) ==> r.pos == c.pos + 1
  {
    if AtEnd(toks, c) then c else c.(pos := c.pos + 1)
  }

  /** `error(token, message)`: the diagnostic is reported whether or not it is thrown. */
  function Report(c: Cursor, token: Token, message: ParseMessage): Cursor {
    c.(errors := c.errors + [ParseError(token, message)])
  }

  /** What every production keeps: the cursor stays inside the list and never moves back,
      diagnostics are only appended, and a production that throws has reported why. */
  predicate Moves<T>(toks: seq<Token>, c: Cursor, r: Parsed<T>) {
    && InBounds(toks, r.After())
    && c.pos <= r.After().pos
    && c.errors <= r.After().errors
    && (r.Failed? ==> |c.errors| < |r.After().errors|)
  }

  /** `consume(kind, message)`: the expected token, or a throw reported at `peek()`. */
  function Consume(toks: seq<Token>, c: Cursor, kind: TokenType, message: ParseMessage): (r: Parsed<Token>)
    requires InBounds(toks, c)
    ensures Moves(toks, c, r)
    ensures r.Done? <==> Check(toks, c, kind)
    ensures r.Done? ==> r.value == toks[c.pos] && r.value.kind == kind && r.next.pos == c.pos + 1
    ensures r.Failed? ==> r.at == Report(c, toks[c.pos], message)
  {
    if Check(toks, c, kind) then Done(toks[c.pos], Advance(toks, c))
    else Failed(Report(c, toks[c.pos], message))
  }

  // ---------------------------------------------------------------------------------------
  // Expressions

  /** The four left-associative binary levels, loosest first. */
  datatype Level = Equality | Comparison | Addition | Multiplication

  /** The operators `match` looks for at each level. */
  function Operators(level: Level): seq<TokenType> {
    match level
    case Equality => [BANG_EQUAL, EQUAL_EQUAL]
    case Comparison => [GREATER, GREATER_EQUAL, LESS, LESS_EQUAL]
    case Addition => [MINUS, PLUS]
    case Multiplication => [SLASH, STAR]
  }

  /** How far a level is from `unary`; it orders the mutual recursion below. */
  function Rank(level: Level): nat {
    match level
    case Equality => 4
    case Comparison => 3
    case Addition => 2
    case Multiplication => 1
  }

  /** `expression()`. */
  function ParseExpression(toks: seq<Token>, c: Cursor): (r: Parsed<Expr>)
    requires InBounds(toks, c)
    ensures Moves(toks, c, r)
    decreases |toks| - c.pos, 16
  {
    ParseAssignment(toks, c)
  }

  /** `assignment()`: an equality expression, and when `=` follows, the right-hand side
      parsed recursively (so assignment groups to the right). Only a variable may stand left
      of `=`; any other target is reported without throwing and the left side is returned. */
  function ParseAssignment(toks: seq<Token>, c: Cursor): (r: Parsed<Expr>)
    requires InBounds(toks, c)
    ensures Moves(toks, c, r)
    decreases |toks| - c.pos, 15
  {
    match ParseBinary(Equality, toks, c)
    case Failed(d) => Failed(d)
    case Done(target, d) =>
      if !Check(toks, d, EQUAL) then Done(target, d)
      else
        match ParseAssignment(toks, Advance(toks, d))
        case Failed(e) => Failed(e)
        case Done(value, e) =>
          if target.Variable? then Done(Assign(target.name, value), e)
          else Done(target, Report(e, toks[d.pos], InvalidAssignmentTarget))
  }

  /** `equality()`, `comparison()`, `addition()` and `multiplication()`: one operand, then
      the loop that folds each further operator and operand onto the left. */
  function ParseBinary(level: Level, toks: seq<Token>, c: Cursor): (r: Parsed<Expr>)
    requires InBounds(toks, c)
    ensures Moves(toks, c, r)
    decreases |toks| - c.pos, 3 * Rank(level) + 2
  {
    match ParseOperand(level, toks, c)
    case Failed(d) => Failed(d)
    case Done(left, d) => BinaryTail(level, toks, d, left)
  }

  /** The `while (match(...))` loop of a binary level, with `expr` so far as `left`. */
  function BinaryTail(level: Level, toks: seq<Token>, c: Cursor, left: Expr): (r: Parsed<Expr>)
    requires InBounds(toks, c)
    ensures Moves(toks, c, r)
    decreases |toks| - c.pos, 3 * Rank(level) + 1
  {
    if !Matches(toks, c, Operators(level)) then Done(left, c)
    else
      match ParseOperand(level, toks, Advance(toks, c))
      case Failed(d) => Failed(d)
      case Done(right, d) => BinaryTail(level, toks, d, Binary(left, toks[c.pos], right))
  }

  /** The next tighter level, which parses the operands of `level`. */
  function ParseOperand(level: Level, toks: seq<Token>, c: Cursor): (r: Parsed<Expr>)
    requires InBounds(toks, c)
    ensures Moves(toks, c, r)
    decreases |toks| - c.pos, 3 * Rank(level)
  {
    match level
    case Equality => ParseBinary(Comparison, toks, c)
    case Comparison => ParseBinary(Addition, toks, c)
    case Addition => ParseBinary(Multiplication, toks, c)
    case Multiplication => ParseUnary(toks, c)
  }

  /** `unary()`: prefix `!` and `-`, right-recursive, then `primary()`. */
  function ParseUnary(toks: seq<Token>, c: Cursor): (r: Parsed<Expr>)
    requires InBounds(toks, c)
    ensures Moves(toks, c, r)
    decreases |toks| - c.pos, 2
  {
    if !Matches(toks, c, [BANG, MINUS]) then ParsePrimary(toks, c)
    else
      match ParseUnary(toks, Advance(toks, c))
      case Failed(d) => Failed(d)
      case Done(right, d) => Done(Unary(toks[c.pos], right), d)
  }

  /** `primary()`: literals, variables and parenthesised expressions; anything else throws
      "Expect expression." at the current token. */
  function ParsePrimary(toks: seq<Token>, c: Cursor): (r: Parsed<Expr>)
    requires InBounds(toks, c)
    ensures Moves(toks, c, r)
    decreases |toks| - c.pos, 1
  {
    if Check(toks, c, FALSE) then Done(Literal(Bool(false)), Advance(toks, c))
    else if Check(toks, c, TRUE) then Done(Literal(Bool(true)), Advance(toks, c))
    else if Check(toks, c, NIL) then Done(Literal(Nil), Advance(toks, c))
    else if Check(toks, c, NUMBER) || Check(toks, c, STRING) then Done(Literal(toks[c.pos].literal), Advance(toks, c))
    else if Check(toks, c, IDENTIFIER) then Done(Variable(toks[c.pos]), Advance(toks, c))
    else if Check(toks, c, LEFT_PAREN) then
      match ParseExpression(toks, Advance(toks, c))
      case Failed(d) => Failed(d)
      case Done(inner, d) =>
        match Consume(toks, d, RIGHT_PAREN, ExpectRightParen)
        case Failed(e) => Failed(e)
        case Done(_, e) => Done(Grouping(inner), e)
    else Failed(Report(c, toks[c.pos], ExpectExpression))
  }

  // ---------------------------------------------------------------------------------------
  // Statements

  /** `printStatement()`, entered after `print`. */
  function ParsePrintStatement(toks: seq<Token>, c: Cursor): (r: Parsed<Stmt>)
    requires InBounds(toks, c)
    ensures Moves(toks, c, r)
  {
    match ParseExpression(toks, c)
    case Failed(d) => Failed(d)
    case Done(value, d) =>
      match Consume(toks, d, SEMICOLON, ExpectValueSemicolon)
      case Failed(e) => Failed(e)
      case Done(_, e) => Done(Print(value), e)
  }

  /** `expressionStatement()`: an expression and its `;`, which always consumes a token. */
  function ParseExpressionStatement(toks: seq<Token>, c: Cursor): (r: Parsed<Stmt>)
    requires InBounds(toks, c)
    ensures Moves(toks, c, r)
    ensures r.Done? ==> c.pos < r.next.pos
  {
    match ParseExpression(toks, c)
    case Failed(d) => Failed(d)
    case Done(expr, d) =>
      match Consume(toks, d, SEMICOLON, ExpectExpressionSemicolon)
      case Failed(e) => Failed(e)
      case Done(_, e) => Done(Expression(expr), e)
  }

  /** `if (match(EQUAL)) expression() else null` of `varDeclaration()`. */
  function ParseInitializer(toks: seq<Token>, c: Cursor): (r: Parsed<Option<Expr>>)
    requires InBounds(toks, c)
    ensures Moves(toks, c, r)
  {
    if !Check(toks, c, EQUAL) then Done(None, c)
    else
      match ParseExpression(toks, Advance(toks, c))
      case Failed(d) => Failed(d)
      case Done(e, d) => Done(Some(e), d)
  }

  /** `varDeclaration()`, entered after `var`. */
  function ParseVarDeclaration(toks: seq<Token>, c: Cursor): (r: Parsed<Stmt>)
    requires InBounds(toks, c)
    ensures Moves(toks, c, r)
  {
    match Consume(toks, c, IDENTIFIER, ExpectVariableName)
    case Failed(d) => Failed(d)
    case Done(name, d) =>
      match ParseInitializer(toks, d)
      case Failed(e) => Failed(e)
      case Done(init, e) =>
        match Consume(toks, e, SEMICOLON, ExpectDeclarationSemicolon)
        case Failed(f) => Failed(f)
        case Done(_, f) => Done(Var(name, init), f)
  }

  /** The keywords before which `synchronize` stops. */
  predicate IsStatementStart(kind: TokenType) {
    kind == CLASS || kind == FUN || kind == VAR || kind == FOR || kind == IF || kind == WHILE || kind == PRINT || kind == RETURN
  }

  /** A position where `synchronize`'s loop stops: EOF, just after a `;`, or just before a
      keyword that starts a statement. */
  predicate SyncPoint(toks: seq<Token>, pos: nat)
    requires pos < |toks|
  {
    toks[pos].kind == EOF || (0 < pos && toks[pos - 1].kind == SEMICOLON) || IsStatementStart(toks[pos].kind)
  }

  /** The `while (!isAtEnd())` loop of `synchronize()`. */
  function SyncLoop(toks: seq<Token>, c: Cursor): (r: Cursor)
    requires InBounds(toks, c) && (AtEnd(toks, c) || 0 < c.pos)
    ensures InBounds(toks, r) && c.pos <= r.pos && r.errors == c.errors
    decreases |toks| - c.pos
  {
    if AtEnd(toks, c) || toks[c.pos - 1].kind == SEMICOLON || IsStatementStart(toks[c.pos].kind) then c
    else SyncLoop(toks, Advance(toks, c))
  }

  /** `synchronize()`: discard the token where the error was thrown, then skip to the next
      statement boundary. */
  function Synchronize(toks: seq<Token>, c: Cursor): (r: Cursor)
    requires InBounds(toks, c)
    ensures InBounds(toks, r) && c.pos <= r.pos && r.errors == c.errors
    ensures !AtEnd(toks, c) ==> c.pos < r.pos
  {
    SyncLoop(toks, Advance(toks, c))
  }

  /** The `try` block of `declaration()`: a variable declaration after `var`, otherwise a
      statement. Whatever it returns, it has consumed a token. */
  function DeclarationBody(toks: seq<Token>, c: Cursor): (r: Parsed<Stmt>)
    requires InBounds(toks, c)
    ensures Moves(toks, c, r)
    ensures r.Done? ==> c.pos < r.next.pos
    decreases |toks| - c.pos, 2
  {
    if Check(toks, c, VAR) then ParseVarDeclaration(toks, Advance(toks, c)) else ParseStatement(toks, c)
  }

  /** `declaration()`: a failed declaration is caught, the parser resynchronizes and the
      declaration yields no statement. It never throws, and it consumes a token unless it
      starts at EOF, which is what makes the loops of `parse` and `block` terminate. */
  function ParseDeclaration(toks: seq<Token>, c: Cursor): (r: Parsed<Option<Stmt>>)
    requires InBounds(toks, c)
    ensures r.Done? && Moves(toks, c, r)
    ensures !AtEnd(toks, c) ==> c.pos < r.next.pos
    decreases |toks| - c.pos, 3
  {
    match DeclarationBody(toks, c)
    case Done(s, d) => Done(Some(s), d)
    case Failed(d) => Done(None, Synchronize(toks, d))
  }

  /** `statement()`. */
  function ParseStatement(toks: seq<Token>, c: Cursor): (r: Parsed<Stmt>)
    requires InBounds(toks, c)
    ensures Moves(toks, c, r)
    ensures r.Done? ==> c.pos < r.next.pos
    decreases |toks| - c.pos, 1
  {
    if Check(toks, c, PRINT) then ParsePrintStatement(toks, Advance(toks, c))
    else if Check(toks, c, LEFT_BRACE) then
      match BlockFrom(toks, Advance(toks, c), [])
      case Failed(d) => Failed(d)
      case Done(body, d) => Done(Block(body), d)
    else ParseExpressionStatement(toks, c)
  }

  /** `block()`, entered after `{`, with the statements collected so far: declarations up to
      `}` or EOF, then the closing brace. */
  function BlockFrom(toks: seq<Token>, c: Cursor, acc: seq<Stmt>): (r: Parsed<seq<Stmt>>)
    requires InBounds(toks, c)
    ensures Moves(toks, c, r)
    decreases |toks| - c.pos, 4
  {
    if Check(toks, c, RIGHT_BRACE) || AtEnd(toks, c) then
      match Consume(toks, c, RIGHT_BRACE, ExpectRightBrace)
      case Failed(d) => Failed(d)
      case Done(_, d) => Done(acc, d)
    else
      var d := ParseDeclaration(toks, c);
      BlockFrom(toks, d.next, acc + OptionToSeq(d.value))
  }

  /** The loop of `parse()` from cursor `c`, with the statements collected so far. */
  function ParseFrom(toks: seq<Token>, c: Cursor, acc: seq<Stmt>): (r: Parsed<seq<Stmt>>)
    requires InBounds(toks, c)
    ensures r.Done? && Moves(toks, c, r) && AtEnd(toks, r.next)
    decreases |toks| - c.pos
  {
    if AtEnd(toks, c) then Done(acc, c)
    else
      var d := ParseDeclaration(toks, c);
      ParseFrom(toks, d.next, acc + OptionToSeq(d.value))
  }

  /** `parse()` on a fresh parser: the statements, and the diagnostics reported. */
  function Parse(toks: seq<Token>): (r: Parsed<seq<Stmt>>)
    requires EndsWithEof(toks)
    ensures r.Done? && InBounds(toks, r.next) && AtEnd(toks, r.next)
  {
    ParseFrom(toks, Cursor(0, []), [])
  }
}
