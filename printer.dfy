/** The tree printer: renders an expression as a fully parenthesised prefix
    string. The visitor's double dispatch (`accept` / `visit*`) is a `match`
    over the expression's variant. */
module AstPrinter {
  import opened LoxValues
  import opened Tokens
  import opened Expressions

  /** A literal's text: `nil` for null, otherwise the value's own `toString`. */
  function LiteralText(v: LoxObject): (s: string)
  {
    if v.Nil? then "nil" else Stringify(v)
  }

  /** The renderings after the name, each one preceded by a single space, in
      order; built from the back, as the accumulating loop builds it. */
  function Spaced(parts: seq<string>): (s: string)
    decreases |parts|
  {
    if parts == [] then "" else Spaced(parts[..|parts| - 1]) + " " + parts[|parts| - 1]
  }

  /** What `parenthesize` returns for a name and the renderings of its
      arguments: an opening parenthesis, the name, the spaced renderings and
      a closing parenthesis. */
  function Parenthesized(name: string, parts: seq<string>): (s: string)
    ensures |s| >= |name| + 2 && s[..|name| + 1] == "(" + name && s[|s| - 1] == ')'
  {
    "(" + name + Spaced(parts) + ")"
  }

  /** The rendering of an expression (`print`, with the four `visit*` cases). */
  function Print(e: Expr): (s: string)
  {
    match e
    case Literal(v) => LiteralText(v)
    case Grouping(inner) => Parenthesized("group", [Print(inner)])
    case Unary(op, right) => Parenthesized(op.lexeme, [Print(right)])
    case Binary(left, op, right) => Parenthesized(op.lexeme, [Print(left), Print(right)])
  }

  /** The renderings of a list of expressions, position by position. */
  function PrintAll(es: seq<Expr>): (r: seq<string>)
  {
    seq(|es|, i requires 0 <= i < |es| => Print(es[i]))
  }

  /** `parenthesize`: starts from `(` and the name, appends a space and each
      argument's rendering in turn, and closes with `)`. */
  method Parenthesize(name: string, exprs: seq<Expr>) returns (str: string)
    ensures str == Parenthesized(name, PrintAll(exprs))
    ensures |str| >= |name| + 2 && str[..|name| + 1] == "(" + name && str[|str| - 1] == ')'
  {
    var parts := PrintAll(exprs);
    str := "(" + name;
    for i := 0 to |exprs|
      invariant str == "(" + name + Spaced(parts[..i])
    {
      assert parts[..i + 1][..i] == parts[..i];
      str := str + " " + Print(exprs[i]);
    }
    assert parts[..|exprs|] == parts;
    str := str + ")";
  }

  // ---------------------------------------------------------------------
  // The shape of the output

  /** Front-first reading of `Spaced`: the first rendering comes first, after
      exactly one space, and the rest follow in order. */
  lemma {:induction false} SpacedFront(parts: seq<string>)
    requires parts != []
    ensures Spaced(parts) == " " + parts[0] + Spaced(parts[1..])
    decreases |parts|
  {
    if |parts| > 1 {
      var init := parts[..|parts| - 1];
      SpacedFront(init);
      assert init[1..] == parts[1..][..|parts[1..]| - 1];
      assert init[0] == parts[0];
    } else {
      assert parts[1..] == [];
      assert parts[..0] == [];
    }
  }

  /** With one argument, `parenthesize` is the name and the rendering between
      parentheses, separated by a single space. */
  lemma ParenthesizedOne(name: string, a: string)
    ensures Parenthesized(name, [a]) == "(" + name + " " + a + ")"
  {
    assert [a][..0] == [];
    assert Spaced([a]) == " " + a;
  }

  /** With two arguments, the name and both renderings in argument order,
      separated by single spaces. */
  lemma ParenthesizedTwo(name: string, a: string, b: string)
    ensures Parenthesized(name, [a, b]) == "(" + name + " " + a + " " + b + ")"
  {
    ParenthesizedOne(name, a);
    assert [a, b][..1] == [a];
    assert Spaced([a, b]) == " " + a + " " + b;
  }

  lemma PrintNil()
    ensures Print(Literal(Nil)) == "nil"
  {
  }

  /** A non-null literal renders as its value's text: `true`/`false` for a
      boolean, the text itself for a string, the decimal form of a number. */
  lemma PrintLiteral(v: LoxObject)
    ensures v != Nil ==> Print(Literal(v)) == Stringify(v)
    ensures v.Bool? ==> Print(Literal(v)) == (if v.b then "true" else "false")
    ensures v.Str? ==> Print(Literal(v)) == v.s
    ensures v.Num? ==> Print(Literal(v)) == IntToString(v.n)
  {
  }

  lemma PrintBinary(left: Expr, op: Token, right: Expr)
    ensures Print(Binary(left, op, right)) ==
      "(" + op.lexeme + " " + Print(left) + " " + Print(right) + ")"
  {
    ParenthesizedTwo(op.lexeme, Print(left), Print(right));
  }

  lemma PrintGrouping(inner: Expr)
    ensures Print(Grouping(inner)) == "(group " + Print(inner) + ")"
  {
    ParenthesizedOne("group", Print(inner));
  }

  lemma PrintUnary(op: Token, right: Expr)
    ensures Print(Unary(op, right)) == "(" + op.lexeme + " " + Print(right) + ")"
  {
    ParenthesizedOne(op.lexeme, Print(right));
  }

  /** Every node other than a literal renders between an opening and a
      closing parenthesis. */
  lemma PrintBracketed(e: Expr)
    requires !e.Literal?
    ensures var s := Print(e); |s| >= 2 && s[0] == '(' && s[|s| - 1] == ')'
  {
  }

  // ---------------------------------------------------------------------
  // Parenthesis balance

  predicate NoParen(s: string) {
    '(' !in s && ')' !in s
  }

  /** No operator lexeme and no literal text in the tree holds a parenthesis. */
  predicate ParenFree(e: Expr)
  {
    match e
    case Literal(v) => NoParen(LiteralText(v))
    case Grouping(inner) => ParenFree(inner)
    case Unary(op, right) => NoParen(op.lexeme) && ParenFree(right)
    case Binary(left, op, right) => NoParen(op.lexeme) && ParenFree(left) && ParenFree(right)
  }

  /** The number of nodes that are not literals. */
  function NonLiteralCount(e: Expr): nat
  {
    match e
    case Literal(_) => 0
    case Grouping(inner) => 1 + NonLiteralCount(inner)
    case Unary(_, right) => 1 + NonLiteralCount(right)
    case Binary(left, _, right) => 1 + NonLiteralCount(left) + NonLiteralCount(right)
  }

  /** When no lexeme or literal text holds a parenthesis, the rendering has
      one `(` and one `)` per non-literal node. */
  lemma {:induction false} PrintBalanced(e: Expr)
    requires ParenFree(e)
    ensures multiset(Print(e))['('] == NonLiteralCount(e)
    ensures multiset(Print(e))[')'] == NonLiteralCount(e)
    decreases e, 1
  {
    match e
    case Literal(v) => NoParenCount(LiteralText(v));
    case Grouping(inner) => GroupingBalanced(inner);
    case Unary(op, right) => UnaryBalanced(op, right);
    case Binary(left, op, right) => BinaryBalanced(left, op, right);
  }

  lemma {:induction false} GroupingBalanced(inner: Expr)
    requires ParenFree(inner)
    ensures multiset(Print(Grouping(inner)))['('] == NonLiteralCount(Grouping(inner))
    ensures multiset(Print(Grouping(inner)))[')'] == NonLiteralCount(Grouping(inner))
    decreases Grouping(inner), 0
  {
    PrintBalanced(inner);
    GroupNoParen();
    WrapOneCounts("group", Print(inner));
  }

  lemma {:induction false} UnaryBalanced(op: Token, right: Expr)
    requires ParenFree(Unary(op, right))
    ensures multiset(Print(Unary(op, right)))['('] == NonLiteralCount(Unary(op, right))
    ensures multiset(Print(Unary(op, right)))[')'] == NonLiteralCount(Unary(op, right))
    decreases Unary(op, right), 0
  {
    PrintBalanced(right);
    WrapOneCounts(op.lexeme, Print(right));
  }

  lemma {:induction false} BinaryBalanced(left: Expr, op: Token, right: Expr)
    requires ParenFree(Binary(left, op, right))
    ensures multiset(Print(Binary(left, op, right)))['('] == NonLiteralCount(Binary(left, op, right))
    ensures multiset(Print(Binary(left, op, right)))[')'] == NonLiteralCount(Binary(left, op, right))
    decreases Binary(left, op, right), 0
  {
    var e := Binary(left, op, right);
    assert NoParen(op.lexeme) && ParenFree(left) && ParenFree(right);
    assert NonLiteralCount(e) == 1 + NonLiteralCount(left) + NonLiteralCount(right);
    assert Print(e) == Parenthesized(op.lexeme, [Print(left), Print(right)]);
    PrintBalanced(left);
    PrintBalanced(right);
    WrapTwoCounts(op.lexeme, Print(left), Print(right));
  }

  /** Wrapping a name and one rendering in a pair of parentheses adds one to
      each count. */
  lemma WrapOneCounts(name: string, a: string)
    requires NoParen(name)
    ensures multiset(Parenthesized(name, [a]))['('] == 1 + multiset(a)['(']
    ensures multiset(Parenthesized(name, [a]))[')'] == 1 + multiset(a)[')']
  {
    NoParenCount(name);
    ParenthesizedOne(name, a);
    assert multiset(Parenthesized(name, [a])) ==
      multiset("(") + multiset(name) + multiset(" ") + multiset(a) + multiset(")");
  }

  /** Wrapping a name and two renderings in a pair of parentheses adds one
      to each count. */
  lemma WrapTwoCounts(name: string, a: string, b: string)
    requires NoParen(name)
    ensures multiset(Parenthesized(name, [a, b]))['('] == 1 + multiset(a)['('] + multiset(b)['(']
    ensures multiset(Parenthesized(name, [a, b]))[')'] == 1 + multiset(a)[')'] + multiset(b)[')']
  {
    NoParenCount(name);
    ParenthesizedTwo(name, a, b);
    assert multiset(Parenthesized(name, [a, b])) ==
      multiset("(") + multiset(name) + multiset(" ") + multiset(a) + multiset(" ") + multiset(b) + multiset(")");
  }

  lemma GroupNoParen()
    ensures NoParen("group")
  {
    assert "group" == ['g', 'r', 'o', 'u', 'p'];
  }

  /** A string without parentheses contributes none to either count. */
  lemma NoParenCount(s: string)
    ensures NoParen(s) ==> multiset(s)['('] == 0 && multiset(s)[')'] == 0
  {
  }


  // ---------------------------------------------------------------------
  // Examples

  /** `1 - 2 - 3` as the parser builds it, and `!!true`. */
  lemma PrintExamples()
    ensures var minus := Token(MINUS, "-", Nil, 1);
      Print(Binary(Binary(Literal(Num(1)), minus, Literal(Num(2))), minus, Literal(Num(3))))
        == "(- (- 1 2) 3)"
    ensures var bang := Token(BANG, "!", Nil, 1);
      Print(Unary(bang, Unary(bang, Literal(Bool(true))))) == "(! (! true))"
  {
    var minus := Token(MINUS, "-", Nil, 1);
    var inner := Binary(Literal(Num(1)), minus, Literal(Num(2)));
    PrintBinary(Literal(Num(1)), minus, Literal(Num(2)));
    PrintBinary(inner, minus, Literal(Num(3)));
    var bang := Token(BANG, "!", Nil, 1);
    PrintUnary(bang, Literal(Bool(true)));
    PrintUnary(bang, Unary(bang, Literal(Bool(true))));
  }

  /** The rendering does not always determine the tree: a string literal
      whose text is `nil` prints like the null literal, and a unary node whose
      operator lexeme is `group` prints like a grouping. */
  lemma PrintNotInjective(inner: Expr)
    ensures Print(Literal(Str("nil"))) == Print(Literal(Nil))
    ensures Print(Literal(Str("1"))) == Print(Literal(Num(1)))
    ensures Print(Unary(Token(IDENTIFIER, "group", Nil, 1), inner)) == Print(Grouping(inner))
  {
  }
}
