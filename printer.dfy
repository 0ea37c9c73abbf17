/** The debugging printer: an expression as Lisp-style parenthesised text. It implements the
    older four-case visitor, so it knows groupings, binary and unary expressions and
    literals, and not assignments or variables. */
module Printing {
  import opened Tokens
  import opened Ast

  /** The expressions the printer's visitor can take. */
  predicate Printable(e: Expr) {
    match e
    case Grouping(inner) => Printable(inner)
    case Binary(left, _, right) => Printable(left) && Printable(right)
    case Unary(_, right) => Printable(right)
    case Literal(_) => true
    case Assign(_, _) => false
    case Variable(_) => false
  }

  /** `visitLiteralExpr`: nil is `nil`; any other value is its `toString`, where the text of
      a number is `numeral`'s. */
  function LiteralText(v: Value, numeral: real -> string): string {
    match v
    case Nil => "nil"
    case Bool(b) => if b then "true" else "false"
    case Num(n) => numeral(n)
    case Str(s) => s
  }

  /** Each part after a space, in order: what the `forEach` of `parenthesize` appends. */
  function Spaced(parts: seq<string>): string
    decreases |parts|
  {
    if parts == [] then "" else Spaced(parts[..|parts| - 1]) + " " + parts[|parts| - 1]
  }

  /** What `parenthesize(lexeme, ...)` builds from the renderings of its arguments. */
  function Parenthesized(lexeme: string, parts: seq<string>): string {
    "(" + lexeme + Spaced(parts) + ")"
  }

  /** `print(expr)`: the visitor's dispatch. */
  function Print(e: Expr, numeral: real -> string): string
    requires Printable(e)
    decreases e
  {
    match e
    case Grouping(inner) => Parenthesized("group", [Print(inner, numeral)])
    case Binary(left, operator, right) => Parenthesized(operator.lexeme, [Print(left, numeral), Print(right, numeral)])
    case Unary(operator, right) => Parenthesized(operator.lexeme, [Print(right, numeral)])
    case Literal(v) => LiteralText(v, numeral)
  }

  /** The renderings of a list of expressions. */
  function Renderings(exprs: seq<Expr>, numeral: real -> string): (parts: seq<string>)
    requires forall i :: 0 <= i < |exprs| ==> Printable(exprs[i])
  {
    seq(|exprs|, i requires 0 <= i < |exprs| => Print(exprs[i], numeral))
  }

  /** `parenthesize(lexeme, exprs)`: the `StringBuilder` loop. */
  method Parenthesize(lexeme: string, exprs: seq<Expr>, numeral: real -> string) returns (s: string)
    requires forall i :: 0 <= i < |exprs| ==> Printable(exprs[i])
    ensures s == Parenthesized(lexeme, Renderings(exprs, numeral))
  {
    var builder := "(" + lexeme;
    for i := 0 to |exprs|
      invariant builder == "(" + lexeme + Spaced(Renderings(exprs[..i], numeral))
    {
      assert Renderings(exprs[..i + 1], numeral)[..i] == Renderings(exprs[..i], numeral);
      builder := builder + " " + Print(exprs[i], numeral);
    }
    assert exprs[..|exprs|] == exprs;
    s := builder + ")";
  }

  // ---------------------------------------------------------------------------------------
  // Properties

  lemma SpacedOne(a: string)
    ensures Spaced([a]) == " " + a
  {
    assert [a][..0] == [];
  }

  lemma SpacedTwo(a: string, b: string)
    ensures Spaced([a, b]) == " " + a + " " + b
  {
    assert [a, b][..1] == [a];
    SpacedOne(a);
  }

  /** The rendering of each kind of node, written out. */
  lemma PrintShapes(e: Expr, numeral: real -> string)
    requires Printable(e)
    ensures e == Literal(Nil) ==> Print(e, numeral) == "nil"
    ensures e.Grouping? ==> Print(e, numeral) == "(group " + Print(e.expression, numeral) + ")"
    ensures e.Binary? ==>
      Print(e, numeral) == "(" + e.operator.lexeme + " " + Print(e.left, numeral) + " " + Print(e.right, numeral) + ")"
    ensures e.Unary? ==> Print(e, numeral) == "(" + e.operator.lexeme + " " + Print(e.right, numeral) + ")"
  {
    match e
    case Grouping(inner) =>
      SpacedOne(Print(inner, numeral));
    case Binary(left, operator, right) =>
      SpacedTwo(Print(left, numeral), Print(right, numeral));
    case Unary(operator, right) =>
      SpacedOne(Print(right, numeral));
    case Literal(_) =>
  }

  /** Opening minus closing parentheses. */
  function Depth(s: string): int
    decreases |s|
  {
    if s == [] then 0
    else Depth(s[..|s| - 1]) + (if s[|s| - 1] == '(' then 1 else if s[|s| - 1] == ')' then -1 else 0)
  }

  predicate ParenFree(s: string) {
    forall i :: 0 <= i < |s| ==> s[i] != '(' && s[i] != ')'
  }

  /** Every parenthesis is closed, and none is closed before it is opened. */
  predicate Balanced(s: string) {
    Depth(s) == 0 && forall k :: 0 <= k <= |s| ==> Depth(s[..k]) >= 0
  }

  /** The lexemes and literal texts in a tree hold no parentheses. */
  predicate PlainLeaves(e: Expr, numeral: real -> string)
    requires Printable(e)
  {
    match e
    case Grouping(inner) => PlainLeaves(inner, numeral)
    case Binary(left, operator, right) =>
      ParenFree(operator.lexeme) && PlainLeaves(left, numeral) && PlainLeaves(right, numeral)
    case Unary(operator, right) => ParenFree(operator.lexeme) && PlainLeaves(right, numeral)
    case Literal(v) => ParenFree(LiteralText(v, numeral))
  }

  lemma {:induction false} DepthConcat(a: string, b: string)
    ensures Depth(a + b) == Depth(a) + Depth(b)
    decreases |b|
  {
    if b == [] {
      assert a + b == a;
    } else {
      assert (a + b)[..|a + b| - 1] == a + b[..|b| - 1];
      DepthConcat(a, b[..|b| - 1]);
    }
  }

  lemma {:induction false} ParenFreeDepth(s: string)
    requires ParenFree(s)
    ensures Depth(s) == 0
    decreases |s|
  {
    if s != [] {
      ParenFreeDepth(s[..|s| - 1]);
    }
  }

  lemma ParenFreeBalanced(s: string)
    requires ParenFree(s)
    ensures Balanced(s)
  {
    ParenFreeDepth(s);
    forall k | 0 <= k <= |s|
      ensures Depth(s[..k]) >= 0
    {
      ParenFreeDepth(s[..k]);
    }
  }

  lemma BalancedConcat(a: string, b: string)
    requires Balanced(a) && Balanced(b)
    ensures Balanced(a + b)
  {
    DepthConcat(a, b);
    forall k | 0 <= k <= |a + b|
      ensures Depth((a + b)[..k]) >= 0
    {
      if k <= |a| {
        assert (a + b)[..k] == a[..k];
      } else {
        assert (a + b)[..k] == a + b[..k - |a|];
        DepthConcat(a, b[..k - |a|]);
      }
    }
  }

  lemma {:induction false} SpacedBalanced(parts: seq<string>)
    requires forall i :: 0 <= i < |parts| ==> Balanced(parts[i])
    ensures Balanced(Spaced(parts))
    decreases |parts|
  {
    if parts == [] {
      ParenFreeBalanced("");
    } else {
      SpacedBalanced(parts[..|parts| - 1]);
      ParenFreeBalanced(" ");
      BalancedConcat(Spaced(parts[..|parts| - 1]), " ");
      BalancedConcat(Spaced(parts[..|parts| - 1]) + " ", parts[|parts| - 1]);
    }
  }

  /** Parenthesizing balanced text gives balanced text whose first parenthesis is closed
      only by its last character. */
  lemma Enclosed(s: string)
    requires Balanced(s)
    ensures Balanced("(" + s + ")")
    ensures forall k :: 0 < k < |s| + 2 ==> Depth(("(" + s + ")")[..k]) > 0
  {
    var t := "(" + s + ")";
    assert t[..|t| - 1] == "(" + s;
    DepthConcat("(", s);
    assert Depth("(") == 1 by {
      assert "("[..0] == [];
    }
    forall k | 0 < k < |t|
      ensures Depth(t[..k]) > 0
    {
      assert t[..k] == "(" + s[..k - 1];
      DepthConcat("(", s[..k - 1]);
    }
    assert t[..0] == [];
    assert t[..|t|] == t;
  }

  /** What `parenthesize` builds from a plain lexeme and balanced parts is balanced, and
      its first parenthesis closes only at its end. */
  lemma ParenthesizedBalanced(lexeme: string, parts: seq<string>)
    requires ParenFree(lexeme)
    requires forall i :: 0 <= i < |parts| ==> Balanced(parts[i])
    ensures var s := Parenthesized(lexeme, parts);
      && Balanced(s) && s[0] == '(' && s[|s| - 1] == ')'
      && forall k :: 0 < k < |s| ==> Depth(s[..k]) > 0
  {
    ParenFreeBalanced(lexeme);
    SpacedBalanced(parts);
    BalancedConcat(lexeme, Spaced(parts));
    Enclosed(lexeme + Spaced(parts));
    assert Parenthesized(lexeme, parts) == "(" + (lexeme + Spaced(parts)) + ")";
  }

  /** When no lexeme or literal text holds a parenthesis, every rendering is balanced, and
      that of a grouping, binary or unary expression is wrapped in one pair of parentheses
      that closes only at its end. */
  lemma {:induction false} PrintBalanced(e: Expr, numeral: real -> string)
    requires Printable(e) && PlainLeaves(e, numeral)
    ensures Balanced(Print(e, numeral))
    ensures !e.Literal? ==> var s := Print(e, numeral);
      && s[0] == '(' && s[|s| - 1] == ')'
      && forall k :: 0 < k < |s| ==> Depth(s[..k]) > 0
    decreases e
  {
    match e
    case Literal(v) =>
      ParenFreeBalanced(LiteralText(v, numeral));
    case Grouping(inner) =>
      PrintBalanced(inner, numeral);
      ParenthesizedBalanced("group", [Print(inner, numeral)]);
    case Binary(left, operator, right) =>
      PrintBalanced(left, numeral);
      PrintBalanced(right, numeral);
      ParenthesizedBalanced(operator.lexeme, [Print(left, numeral), Print(right, numeral)]);
    case Unary(operator, right) =>
      PrintBalanced(right, numeral);
      ParenthesizedBalanced(operator.lexeme, [Print(right, numeral)]);
  }
}
