/** What the parser's productions guarantee about the trees they build and about error
    recovery, proved from the functions of ParseSpec. */
module ParseFacts {
  import opened Wrappers
  import opened Tokens
  import opened Ast
  import opened ParseSpec

  /** How tightly each binary operator binds, from 1 (`!=`, `==`) to 4 (`/`, `*`); 0 for a
      kind that is no binary operator. */
  function OpBinding(kind: TokenType): nat {
    if kind == BANG_EQUAL || kind == EQUAL_EQUAL then 1
    else if kind == GREATER || kind == GREATER_EQUAL || kind == LESS || kind == LESS_EQUAL then 2
    else if kind == MINUS || kind == PLUS then 3
    else if kind == SLASH || kind == STAR then 4
    else 0
  }

  /** The binding strength of the operators of a level. */
  function Binding(level: Level): nat {
    match level
    case Equality => 1
    case Comparison => 2
    case Addition => 3
    case Multiplication => 4
  }

  /** The operators a level matches are exactly those of its binding strength. */
  lemma OperatorsBinding(level: Level, kind: TokenType)
    ensures kind in Operators(level) <==> OpBinding(kind) == Binding(level)
  {
  }

  /** How tightly a tree binds at its root: 0 for an assignment, its operator's strength for
      a binary node, 5 for a prefix operator, 6 for a primary expression. */
  function Tightness(e: Expr): nat {
    match e
    case Assign(_, _) => 0
    case Binary(_, op, _) => OpBinding(op.kind)
    case Unary(_, _) => 5
    case _ => 6
  }

  /** The shape of every tree the parser builds. A binary node's left operand binds at least
      as tightly as its operator and its right operand strictly more tightly: `*` and `/`
      group before `+` and `-`, and so on down to `!=` and `==`, and operators of one level
      group to the left. A prefix operator applies to a prefix or primary expression only.
      Assignment, the loosest, can only appear as a whole operand of another assignment, to
      its right, or inside parentheses, and its target is a variable name. */
  predicate WellNested(e: Expr) {
    match e
    case Assign(name, value) => name.kind == IDENTIFIER && WellNested(value)
    case Grouping(inner) => WellNested(inner)
    case Binary(left, op, right) =>
      && 1 <= OpBinding(op.kind) <= Tightness(left)
      && OpBinding(op.kind) < Tightness(right)
      && WellNested(left) && WellNested(right)
    case Variable(name) => name.kind == IDENTIFIER
    case Unary(op, right) =>
      && (op.kind == BANG || op.kind == MINUS)
      && 5 <= Tightness(right) && WellNested(right)
    case Literal(_) => true
  }

  /** Every statement's expressions are well nested, and so are those of nested blocks. */
  predicate StmtWellNested(s: Stmt) {
    match s
    case Block(body) => forall t | t in body :: StmtWellNested(t)
    case Print(e) => WellNested(e)
    case Expression(e) => WellNested(e)
    case Var(name, init) => name.kind == IDENTIFIER && (init.Some? ==> WellNested(init.value))
  }

  // ---------------------------------------------------------------------------------------
  // Precedence and associativity, one lemma per production, by the same mutual recursion.

  lemma {:induction false} AssignmentShape(toks: seq<Token>, c: Cursor)
    requires InBounds(toks, c)
    ensures ParseAssignment(toks, c).Done? ==> WellNested(ParseAssignment(toks, c).value)
    decreases |toks| - c.pos, 15
  {
    BinaryShape(Equality, toks, c);
    match ParseBinary(Equality, toks, c)
    case Failed(_) =>
    case Done(target, d) =>
      if Check(toks, d, EQUAL) {
        AssignmentShape(toks, Advance(toks, d));
      }
  }

  lemma {:induction false} BinaryShape(level: Level, toks: seq<Token>, c: Cursor)
    requires InBounds(toks, c)
    ensures ParseBinary(level, toks, c).Done? ==>
      WellNested(ParseBinary(level, toks, c).value) && Binding(level) <= Tightness(ParseBinary(level, toks, c).value)
    decreases |toks| - c.pos, 3 * Rank(level) + 2
  {
    OperandShape(level, toks, c);
    match ParseOperand(level, toks, c)
    case Failed(_) =>
    case Done(left, d) => TailShape(level, toks, d, left);
  }

  lemma {:induction false} TailShape(level: Level, toks: seq<Token>, c: Cursor, left: Expr)
    requires InBounds(toks, c)
    requires WellNested(left) && Binding(level) <= Tightness(left)
    ensures BinaryTail(level, toks, c, left).Done? ==>
      WellNested(BinaryTail(level, toks, c, left).value) && Binding(level) <= Tightness(BinaryTail(level, toks, c, left).value)
    decreases |toks| - c.pos, 3 * Rank(level) + 1
  {
    if Matches(toks, c, Operators(level)) {
      var a := Advance(toks, c);
      OperandShape(level, toks, a);
      match ParseOperand(level, toks, a)
      case Failed(_) =>
      case Done(right, d) =>
        OperatorsBinding(level, toks[c.pos].kind);
        TailShape(level, toks, d, Binary(left, toks[c.pos], right));
    }
  }

  lemma {:induction false} OperandShape(level: Level, toks: seq<Token>, c: Cursor)
    requires InBounds(toks, c)
    ensures ParseOperand(level, toks, c).Done? ==>
      WellNested(ParseOperand(level, toks, c).value) && Binding(level) < Tightness(ParseOperand(level, toks, c).value)
    decreases |toks| - c.pos, 3 * Rank(level)
  {
    match level
    case Equality => BinaryShape(Comparison, toks, c);
    case Comparison => BinaryShape(Addition, toks, c);
    case Addition => BinaryShape(Multiplication, toks, c);
    case Multiplication => UnaryShape(toks, c);
  }

  lemma {:induction false} UnaryShape(toks: seq<Token>, c: Cursor)
    requires InBounds(toks, c)
    ensures ParseUnary(toks, c).Done? ==> WellNested(ParseUnary(toks, c).value) && 5 <= Tightness(ParseUnary(toks, c).value)
    decreases |toks| - c.pos, 2
  {
    if Matches(toks, c, [BANG, MINUS]) {
      UnaryShape(toks, Advance(toks, c));
    } else {
      PrimaryShape(toks, c);
    }
  }

  lemma {:induction false} PrimaryShape(toks: seq<Token>, c: Cursor)
    requires InBounds(toks, c)
    ensures ParsePrimary(toks, c).Done? ==> WellNested(ParsePrimary(toks, c).value) && Tightness(ParsePrimary(toks, c).value) == 6
    decreases |toks| - c.pos, 1
  {
    if Check(toks, c, FALSE) || Check(toks, c, TRUE) || Check(toks, c, NIL) || Check(toks, c, NUMBER) || Check(toks, c, STRING) {
      assert ParsePrimary(toks, c).value.Literal?;
    } else if Check(toks, c, IDENTIFIER) {
      assert ParsePrimary(toks, c) == Done(Variable(toks[c.pos]), Advance(toks, c));
    } else if Check(toks, c, LEFT_PAREN) {
      AssignmentShape(toks, Advance(toks, c));
    }
  }

  /** Every expression the parser returns is well nested: precedence and associativity as
      `expression()` through `primary()` lay them out. */
  lemma ExpressionWellNested(toks: seq<Token>, c: Cursor)
    requires InBounds(toks, c)
    ensures ParseExpression(toks, c).Done? ==> WellNested(ParseExpression(toks, c).value)
  {
    AssignmentShape(toks, c);
  }

  /** `a - b - c` (and likewise at every binary level) folds to the left:
      `Binary(Binary(a, -, b), -, c)`. */
  lemma LeftFold(level: Level, toks: seq<Token>, c: Cursor, a: Expr, b: Expr, d: Expr, c1: Cursor, c2: Cursor, c3: Cursor)
    requires InBounds(toks, c)
    requires ParseOperand(level, toks, c) == Done(a, c1)
    requires Matches(toks, c1, Operators(level)) && ParseOperand(level, toks, Advance(toks, c1)) == Done(b, c2)
    requires Matches(toks, c2, Operators(level)) && ParseOperand(level, toks, Advance(toks, c2)) == Done(d, c3)
    requires !Matches(toks, c3, Operators(level))
    ensures ParseBinary(level, toks, c) == Done(Binary(Binary(a, toks[c1.pos], b), toks[c2.pos], d), c3)
  {
    var ab := Binary(a, toks[c1.pos], b);
    var abd := Binary(ab, toks[c2.pos], d);
    assert BinaryTail(level, toks, c3, abd) == Done(abd, c3);
    assert BinaryTail(level, toks, c2, ab) == BinaryTail(level, toks, c3, abd);
    assert BinaryTail(level, toks, c1, a) == BinaryTail(level, toks, c2, ab);
  }

  /** `Binary(…Binary(first, ops[0], rest[0])…, ops[n-1], rest[n-1])`: the operands joined
      by the operators from left to right. */
  function LeftNested(first: Expr, ops: seq<Token>, rest: seq<Expr>): Expr
    requires |ops| == |rest|
    decreases |ops|
  {
    if ops == [] then first
    else Binary(LeftNested(first, ops[..|ops| - 1], rest[..|rest| - 1]), ops[|ops| - 1], rest[|rest| - 1])
  }

  /** Folding the first operator in first gives the same tree. */
  lemma {:induction false} LeftNestedCons(first: Expr, op: Token, operand: Expr, ops: seq<Token>, rest: seq<Expr>)
    requires |ops| == |rest|
    ensures LeftNested(Binary(first, op, operand), ops, rest) == LeftNested(first, [op] + ops, [operand] + rest)
    decreases |ops|
  {
    if ops == [] {
      assert [op][..0] == [] && [operand][..0] == [];
    } else {
      LeftNestedCons(first, op, operand, ops[..|ops| - 1], rest[..|rest| - 1]);
      assert ([op] + ops)[..|ops|] == [op] + ops[..|ops| - 1];
      assert ([operand] + rest)[..|rest|] == [operand] + rest[..|rest| - 1];
    }
  }

  /** The tokens from cursor `cs[0]` on are a level's operators `ops`, each at `cs[i]` and
      followed by an operand `rest[i]` that ends at `cs[i + 1]`, and no operator follows the
      last operand. */
  predicate OperatorRun(level: Level, toks: seq<Token>, cs: seq<Cursor>, ops: seq<Token>, rest: seq<Expr>)
    decreases |ops|
  {
    && |cs| == |ops| + 1 && |ops| == |rest| && InBounds(toks, cs[0])
    && if ops == [] then !Matches(toks, cs[0], Operators(level))
       else
         && Matches(toks, cs[0], Operators(level)) && ops[0] == toks[cs[0].pos]
         && ParseOperand(level, toks, Advance(toks, cs[0])) == Done(rest[0], cs[1])
         && OperatorRun(level, toks, cs[1..], ops[1..], rest[1..])
  }

  /** One turn of the loop: the operator and operand are folded onto `left`. */
  lemma TailStep(level: Level, toks: seq<Token>, c: Cursor, left: Expr, op: Token, operand: Expr, d: Cursor)
    requires InBounds(toks, c) && Matches(toks, c, Operators(level)) && op == toks[c.pos]
    requires ParseOperand(level, toks, Advance(toks, c)) == Done(operand, d)
    ensures InBounds(toks, d)
    ensures BinaryTail(level, toks, c, left) == BinaryTail(level, toks, d, Binary(left, op, operand))
  {
  }

  /** The loop of a binary level folds every further operator and operand onto the left. */
  lemma {:induction false} TailFold(level: Level, toks: seq<Token>, cs: seq<Cursor>, left: Expr, ops: seq<Token>, rest: seq<Expr>)
    requires OperatorRun(level, toks, cs, ops, rest)
    ensures BinaryTail(level, toks, cs[0], left) == Done(LeftNested(left, ops, rest), cs[|cs| - 1])
    decreases |ops|
  {
    if ops != [] {
      TailStep(level, toks, cs[0], left, ops[0], rest[0], cs[1]);
      TailFold(level, toks, cs[1..], Binary(left, ops[0], rest[0]), ops[1..], rest[1..]);
      LeftNestedCons(left, ops[0], rest[0], ops[1..], rest[1..]);
      assert [ops[0]] + ops[1..] == ops && [rest[0]] + rest[1..] == rest;
    }
  }

  /** Every binary level is left-associative: operands `first`, `rest[0]`, … separated by the
      level's operator tokens `ops` parse as the left-nested tree, whatever their number. */
  lemma BinaryFold(level: Level, toks: seq<Token>, c: Cursor, first: Expr, cs: seq<Cursor>, ops: seq<Token>, rest: seq<Expr>)
    requires InBounds(toks, c) && OperatorRun(level, toks, cs, ops, rest)
    requires ParseOperand(level, toks, c) == Done(first, cs[0])
    ensures ParseBinary(level, toks, c) == Done(LeftNested(first, ops, rest), cs[|cs| - 1])
  {
    TailFold(level, toks, cs, first, ops, rest);
  }

  /** `unary()` on `!` or `-` builds a prefix node of that very token over the rest. */
  lemma UnaryCases(toks: seq<Token>, c: Cursor)
    requires InBounds(toks, c)
    ensures Matches(toks, c, [BANG, MINUS]) && ParseUnary(toks, Advance(toks, c)).Done? ==>
      ParseUnary(toks, c) == Done(Unary(toks[c.pos], ParseUnary(toks, Advance(toks, c)).value), ParseUnary(toks, Advance(toks, c)).next)
    ensures !Matches(toks, c, [BANG, MINUS]) ==> ParseUnary(toks, c) == ParsePrimary(toks, c)
  {
  }

  /** `primary()` maps each accepted token to its node: `false`, `true` and `nil` to those
      literals, a number or string to a literal of the token's value, an identifier to a
      variable of that token, and `(` expression `)` to a grouping. */
  lemma PrimaryCases(toks: seq<Token>, c: Cursor)
    requires InBounds(toks, c)
    ensures Check(toks, c, FALSE) ==> ParsePrimary(toks, c) == Done(Literal(Bool(false)), Advance(toks, c))
    ensures Check(toks, c, TRUE) ==> ParsePrimary(toks, c) == Done(Literal(Bool(true)), Advance(toks, c))
    ensures Check(toks, c, NIL) ==> ParsePrimary(toks, c) == Done(Literal(Nil), Advance(toks, c))
    ensures Check(toks, c, NUMBER) || Check(toks, c, STRING) ==>
      ParsePrimary(toks, c) == Done(Literal(toks[c.pos].literal), Advance(toks, c))
    ensures Check(toks, c, IDENTIFIER) ==> ParsePrimary(toks, c) == Done(Variable(toks[c.pos]), Advance(toks, c))
    ensures Check(toks, c, LEFT_PAREN) && ParseExpression(toks, Advance(toks, c)).Done?
            && Check(toks, ParseExpression(toks, Advance(toks, c)).next, RIGHT_PAREN) ==>
      ParsePrimary(toks, c) == Done(Grouping(ParseExpression(toks, Advance(toks, c)).value),
                                    ParseSpec.Advance(toks, ParseExpression(toks, Advance(toks, c)).next))
  {
  }

  /** A variable followed by `=` becomes an assignment of the right-hand side. */
  lemma AssignmentToVariable(toks: seq<Token>, c: Cursor, target: Expr, d: Cursor, value: Expr, e: Cursor)
    requires InBounds(toks, c)
    requires ParseBinary(Equality, toks, c) == Done(target, d) && target.Variable?
    requires Check(toks, d, EQUAL) && ParseAssignment(toks, Advance(toks, d)) == Done(value, e)
    ensures ParseAssignment(toks, c) == Done(Assign(target.name, value), e)
  {
  }

  /** Any other target before `=` is reported at the `=` without throwing: the parse goes on
      past the right-hand side and returns the target itself. */
  lemma InvalidTargetReported(toks: seq<Token>, c: Cursor, target: Expr, d: Cursor, value: Expr, e: Cursor)
    requires InBounds(toks, c)
    requires ParseBinary(Equality, toks, c) == Done(target, d) && !target.Variable?
    requires Check(toks, d, EQUAL) && ParseAssignment(toks, Advance(toks, d)) == Done(value, e)
    ensures ParseAssignment(toks, c) == Done(target, Report(e, toks[d.pos], InvalidAssignmentTarget))
  {
  }

  /** The kinds `primary()` accepts. */
  predicate StartsPrimary(kind: TokenType) {
    kind == FALSE || kind == TRUE || kind == NIL || kind == NUMBER || kind == STRING || kind == IDENTIFIER || kind == LEFT_PAREN
  }

  /** Anything that cannot start a primary expression, EOF included, is rejected with
      "Expect expression." at that token, and nothing is consumed. */
  lemma PrimaryRejects(toks: seq<Token>, c: Cursor)
    requires InBounds(toks, c)
    requires !StartsPrimary(toks[c.pos].kind)
    ensures ParsePrimary(toks, c) == Failed(Cursor(c.pos, c.errors + [ParseError(toks[c.pos], ExpectExpression)]))
  {
  }

  // ---------------------------------------------------------------------------------------
  // Error recovery

  lemma {:induction false} SyncLoopStops(toks: seq<Token>, c: Cursor)
    requires InBounds(toks, c) && (AtEnd(toks, c) || 0 < c.pos)
    ensures SyncPoint(toks, SyncLoop(toks, c).pos)
    ensures forall k | c.pos <= k < SyncLoop(toks, c).pos :: !SyncPoint(toks, k)
    decreases |toks| - c.pos
  {
    if !(AtEnd(toks, c) || toks[c.pos - 1].kind == SEMICOLON || IsStatementStart(toks[c.pos].kind)) {
      SyncLoopStops(toks, Advance(toks, c));
    }
  }

  /** `synchronize` always discards the token it starts on (unless it is EOF) and then stops
      at the first statement boundary after it: EOF, just after a `;`, or just before one of
      `class`, `fun`, `var`, `for`, `if`, `while`, `print`, `return`. */
  lemma SynchronizeStops(toks: seq<Token>, c: Cursor)
    requires InBounds(toks, c)
    ensures SyncPoint(toks, Synchronize(toks, c).pos)
    ensures forall k | c.pos < k < Synchronize(toks, c).pos :: !SyncPoint(toks, k)
    ensures !AtEnd(toks, c) ==> c.pos < Synchronize(toks, c).pos
    ensures Synchronize(toks, c).errors == c.errors
  {
    SyncLoopStops(toks, Advance(toks, c));
  }

  /** A declaration that yields no statement has failed, and its failure was reported. */
  lemma DroppedDeclarationReported(toks: seq<Token>, c: Cursor)
    requires InBounds(toks, c)
    ensures ParseDeclaration(toks, c).value.None? <==> DeclarationBody(toks, c).Failed?
    ensures ParseDeclaration(toks, c).value.None? ==> |c.errors| < |ParseDeclaration(toks, c).next.errors|
  {
  }

  // ---------------------------------------------------------------------------------------
  // Every statement the parser returns is well nested.

  lemma InitializerShape(toks: seq<Token>, c: Cursor)
    requires InBounds(toks, c)
    ensures ParseInitializer(toks, c).Done? && ParseInitializer(toks, c).value.Some? ==>
      WellNested(ParseInitializer(toks, c).value.value)
  {
    if Check(toks, c, EQUAL) {
      ExpressionWellNested(toks, Advance(toks, c));
    }
  }

  lemma VarDeclarationShape(toks: seq<Token>, c: Cursor)
    requires InBounds(toks, c)
    ensures ParseVarDeclaration(toks, c).Done? ==> StmtWellNested(ParseVarDeclaration(toks, c).value)
  {
    match Consume(toks, c, IDENTIFIER, ExpectVariableName)
    case Failed(_) =>
    case Done(_, d) => InitializerShape(toks, d);
  }

  lemma {:induction false} DeclarationShape(toks: seq<Token>, c: Cursor)
    requires InBounds(toks, c)
    ensures ParseDeclaration(toks, c).value.Some? ==> StmtWellNested(ParseDeclaration(toks, c).value.value)
    decreases |toks| - c.pos, 3
  {
    BodyShape(toks, c);
  }

  lemma {:induction false} BodyShape(toks: seq<Token>, c: Cursor)
    requires InBounds(toks, c)
    ensures DeclarationBody(toks, c).Done? ==> StmtWellNested(DeclarationBody(toks, c).value)
    decreases |toks| - c.pos, 2
  {
    if Check(toks, c, VAR) {
      VarDeclarationShape(toks, Advance(toks, c));
    } else {
      StatementShape(toks, c);
    }
  }

  lemma {:induction false} StatementShape(toks: seq<Token>, c: Cursor)
    requires InBounds(toks, c)
    ensures ParseStatement(toks, c).Done? ==> StmtWellNested(ParseStatement(toks, c).value)
    decreases |toks| - c.pos, 1
  {
    if Check(toks, c, PRINT) {
      ExpressionWellNested(toks, Advance(toks, c));
    } else if Check(toks, c, LEFT_BRACE) {
      BlockShape(toks, Advance(toks, c), []);
    } else {
      ExpressionWellNested(toks, c);
    }
  }

  lemma {:induction false} BlockShape(toks: seq<Token>, c: Cursor, acc: seq<Stmt>)
    requires InBounds(toks, c)
    requires forall s | s in acc :: StmtWellNested(s)
    ensures BlockFrom(toks, c, acc).Done? ==> forall s | s in BlockFrom(toks, c, acc).value :: StmtWellNested(s)
    decreases |toks| - c.pos, 4
  {
    if !(Check(toks, c, RIGHT_BRACE) || AtEnd(toks, c)) {
      var d := ParseDeclaration(toks, c);
      DeclarationShape(toks, c);
      BlockShape(toks, d.next, acc + OptionToSeq(d.value));
    }
  }

  lemma {:induction false} ParseFromShape(toks: seq<Token>, c: Cursor, acc: seq<Stmt>)
    requires InBounds(toks, c)
    requires forall s | s in acc :: StmtWellNested(s)
    ensures forall s | s in ParseFrom(toks, c, acc).value :: StmtWellNested(s)
    decreases |toks| - c.pos
  {
    if !AtEnd(toks, c) {
      var d := ParseDeclaration(toks, c);
      DeclarationShape(toks, c);
      ParseFromShape(toks, d.next, acc + OptionToSeq(d.value));
    }
  }

  /** The statements of a parsed program respect precedence and associativity throughout. */
  lemma ProgramWellNested(toks: seq<Token>)
    requires EndsWithEof(toks)
    ensures forall s | s in Parse(toks).value :: StmtWellNested(s)
  {
    ParseFromShape(toks, Cursor(0, []), []);
  }
}
