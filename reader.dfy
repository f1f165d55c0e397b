/** Reading the printer's output back. The text keeps each operator's lexeme
    and each literal's text, and loses token kinds, lines and what type a
    literal value had; `Form` is what is left. When lexemes and literal texts
    are plain words, the text determines the `Form`. */
module PrintedForm {
  import opened LoxValues
  import opened Tokens
  import opened Expressions
  import opened AstPrinter

  /** An expression as its rendering shows it. */
  datatype Form =
    | Leaf(text: string)
    | Group(inner: Form)
    | Un(op: string, operand: Form)
    | Bin(op: string, left: Form, right: Form)

  /** What the rendering of `e` shows of it. */
  function FormOf(e: Expr): Form
  {
    match e
    case Literal(v) => Leaf(LiteralText(v))
    case Grouping(inner) => Group(FormOf(inner))
    case Unary(op, right) => Un(op.lexeme, FormOf(right))
    case Binary(left, op, right) => Bin(op.lexeme, FormOf(left), FormOf(right))
  }

  predicate IsDelimiter(c: char) {
    c == ' ' || c == '(' || c == ')'
  }

  /** A plain word: non-empty, with no space and no parenthesis. */
  predicate IsWord(s: string) {
    |s| > 0 && forall i :: 0 <= i < |s| ==> !IsDelimiter(s[i])
  }

  /** Every lexeme and literal text in the tree is a plain word, and no unary
      operator is spelt `group`. */
  predicate Plain(e: Expr)
  {
    match e
    case Literal(v) => IsWord(LiteralText(v))
    case Grouping(inner) => Plain(inner)
    case Unary(op, right) => IsWord(op.lexeme) && op.lexeme != "group" && Plain(right)
    case Binary(left, op, right) => IsWord(op.lexeme) && Plain(left) && Plain(right)
  }

  /** The longest prefix of `s` without a delimiter, and what follows it. */
  function ReadWord(s: string): (r: (string, string))
    ensures r.0 + r.1 == s
  {
    if s == [] || IsDelimiter(s[0]) then ([], s)
    else
      var (w, rest) := ReadWord(s[1..]);
      ([s[0]] + w, rest)
  }

  /** Reads one rendered expression from the front of `s`, giving its form
      and the text after it, or `None` when `s` does not start with one. */
  function Read(s: string): (r: Option<(Form, string)>)
    ensures r.Some? ==> |r.value.1| < |s|
    decreases |s|, 1
  {
    if s == [] then None
    else if s[0] == '(' then ReadNode(s[1..])
    else
      var (w, t) := ReadWord(s);
      if w == [] then None else Some((Leaf(w), t))
  }

  /** Reads a node after its opening parenthesis: the name, one space and
      the first child, then the rest of the node. */
  function ReadNode(s: string): (r: Option<(Form, string)>)
    ensures r.Some? ==> |r.value.1| < |s|
    decreases |s| + 1, 0
  {
    var (name, t) := ReadWord(s);
    if name == [] || t == [] || t[0] != ' ' then None
    else
      var first := Read(t[1..]);
      if first.None? then None else ReadNodeEnd(name, first.value.0, first.value.1)
  }

  /** Finishes a node whose name and first child `a` are read: a closing
      parenthesis makes a grouping (name `group`) or a unary node; a space,
      a second child and a closing parenthesis make a binary node. */
  function ReadNodeEnd(name: string, a: Form, u: string): (r: Option<(Form, string)>)
    ensures r.Some? ==> |r.value.1| < |u|
    decreases |u| + 1, 0
  {
    if u != [] && u[0] == ')' then
      Some((if name == "group" then Group(a) else Un(name, a), u[1..]))
    else if u != [] && u[0] == ' ' then
      var second := Read(u[1..]);
      if second.Some? && second.value.1 != [] && second.value.1[0] == ')' then
        Some((Bin(name, a, second.value.0), second.value.1[1..]))
      else None
    else None
  }

  /** What may follow a rendering inside a larger one. */
  predicate Follows(rest: string) {
    rest == [] || rest[0] == ' ' || rest[0] == ')'
  }

  /** A word followed by a delimiter, or by nothing, reads as that word. */
  lemma {:induction false} ReadWordOf(w: string, rest: string)
    requires forall i :: 0 <= i < |w| ==> !IsDelimiter(w[i])
    requires rest == [] || IsDelimiter(rest[0])
    ensures ReadWord(w + rest) == (w, rest)
  {
    if w != [] {
      assert (w + rest)[0] == w[0];
      assert (w + rest)[1..] == w[1..] + rest;
      ReadWordOf(w[1..], rest);
      assert [w[0]] + w[1..] == w;
    } else {
      assert w + rest == rest;
    }
  }

  /** Reading a plain tree's rendering, followed by anything that may follow
      a rendering, gives back the tree's form and leaves the rest. */
  lemma {:induction false} ReadPrint(e: Expr, rest: string)
    requires Plain(e) && Follows(rest)
    ensures Read(Print(e) + rest) == Some((FormOf(e), rest))
    decreases e, 1
  {
    match e
    case Literal(v) =>
      var w := LiteralText(v);
      ReadWordOf(w, rest);
      assert (w + rest)[0] == w[0];
    case Grouping(inner) => ReadPrintGrouping(inner, rest);
    case Unary(op, right) => ReadPrintUnary(op, right, rest);
    case Binary(left, op, right) => ReadPrintBinary(left, op, right, rest);
  }

  lemma {:induction false} ReadPrintGrouping(inner: Expr, rest: string)
    requires Plain(inner) && Follows(rest)
    ensures Read(Print(Grouping(inner)) + rest) == Some((Group(FormOf(inner)), rest))
    decreases Grouping(inner), 0
  {
    var tail := ")" + rest;
    ReadPrint(inner, tail);
    GroupIsWord();
    ReadNodeFrom("group", Print(inner), tail, FormOf(inner));
    ReadClose("group", FormOf(inner), rest);
    PrintGrouping(inner);
    assert "(" + "group" + " " == "(group ";
    RegroupOne("group", Print(inner), rest);
  }

  lemma {:induction false} ReadPrintUnary(op: Token, right: Expr, rest: string)
    requires Plain(Unary(op, right)) && Follows(rest)
    ensures Read(Print(Unary(op, right)) + rest) == Some((Un(op.lexeme, FormOf(right)), rest))
    decreases Unary(op, right), 0
  {
    var tail := ")" + rest;
    ReadPrint(right, tail);
    ReadNodeFrom(op.lexeme, Print(right), tail, FormOf(right));
    ReadClose(op.lexeme, FormOf(right), rest);
    PrintUnary(op, right);
    RegroupOne(op.lexeme, Print(right), rest);
  }

  lemma {:induction false} ReadPrintBinary(left: Expr, op: Token, right: Expr, rest: string)
    requires Plain(Binary(left, op, right)) && Follows(rest)
    ensures Read(Print(Binary(left, op, right)) + rest) ==
      Some((Bin(op.lexeme, FormOf(left), FormOf(right)), rest))
    decreases Binary(left, op, right), 0
  {
    var tail := " " + (Print(right) + (")" + rest));
    ReadPrint(left, tail);
    ReadPrint(right, ")" + rest);
    ReadNodeFrom(op.lexeme, Print(left), tail, FormOf(left));
    ReadSecondChild(op.lexeme, FormOf(left), Print(right), rest, FormOf(right));
    PrintBinary(left, op, right);
    RegroupTwo(op.lexeme, Print(left), Print(right), rest);
  }

  /** The rendering of a node followed by more text, regrouped so that the
      first child's text is followed by everything after it. */
  lemma RegroupOne(name: string, a: string, rest: string)
    ensures "(" + name + " " + a + ")" + rest == "(" + name + " " + (a + (")" + rest))
  {
  }

  lemma RegroupTwo(name: string, a: string, b: string, rest: string)
    ensures "(" + name + " " + a + " " + b + ")" + rest ==
      "(" + name + " " + (a + (" " + (b + (")" + rest))))
  {
  }

  /** After an opening parenthesis, a name and one space, reading goes on
      with the first child and then finishes the node. */
  lemma ReadNodeFrom(name: string, child: string, tail: string, a: Form)
    requires IsWord(name)
    requires Read(child + tail) == Some((a, tail))
    ensures Read("(" + name + " " + (child + tail)) == ReadNodeEnd(name, a, tail)
  {
    var s := "(" + name + " " + (child + tail);
    assert s[1..] == name + (" " + (child + tail));
    ReadWordOf(name, " " + (child + tail));
    assert (" " + (child + tail))[1..] == child + tail;
    assert ReadNode(s[1..]) == ReadNodeEnd(name, a, tail);
  }

  /** A closing parenthesis after the first child finishes a grouping when
      the name is `group` and a unary node otherwise. */
  lemma ReadClose(name: string, a: Form, rest: string)
    ensures ReadNodeEnd(name, a, ")" + rest) ==
      Some((if name == "group" then Group(a) else Un(name, a), rest))
  {
    assert (")" + rest)[1..] == rest;
  }

  /** After the first child, a space, the second child and a closing
      parenthesis finish a binary node. */
  lemma ReadSecondChild(name: string, a: Form, right: string, rest: string, b: Form)
    requires Read(right + (")" + rest)) == Some((b, ")" + rest))
    ensures ReadNodeEnd(name, a, " " + (right + (")" + rest))) == Some((Bin(name, a, b), rest))
  {
    var u := " " + (right + (")" + rest));
    assert u[0] == ' ' && u[1..] == right + (")" + rest);
    var w := ")" + rest;
    assert w[0] == ')' && w[1..] == rest;
  }

  lemma GroupIsWord()
    ensures IsWord("group")
  {
    assert "group" == ['g', 'r', 'o', 'u', 'p'];
  }

  /** Two plain trees with the same rendering have the same form: the text
      fixes the tree's shape, every operator lexeme and every literal text. */
  lemma PrintUnambiguous(e1: Expr, e2: Expr)
    requires Plain(e1) && Plain(e2)
    ensures Print(e1) == Print(e2) ==> FormOf(e1) == FormOf(e2)
  {
    ReadPrint(e1, []);
    ReadPrint(e2, []);
    assert Print(e1) + [] == Print(e1);
    assert Print(e2) + [] == Print(e2);
  }

  /** The printer's own texts for null, booleans and integers are plain
      words; only a string literal can break the condition. */
  lemma LiteralTextIsWord(v: LoxObject)
    requires !v.Str?
    ensures IsWord(LiteralText(v))
  {
    if v.Num? {
      IntToStringPlain(v.n);
      IntToStringRoundTrip(v.n);
      var s := LiteralText(v);
      forall i | 0 <= i < |s| ensures !IsDelimiter(s[i]) {
        assert s[i] in s;
      }
    } else if v.Nil? {
      assert LiteralText(v) == ['n', 'i', 'l'];
    } else if v.b {
      assert LiteralText(v) == ['t', 'r', 'u', 'e'];
    } else {
      assert LiteralText(v) == ['f', 'a', 'l', 's', 'e'];
    }
  }
}
