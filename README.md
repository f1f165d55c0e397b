# tlox: token model and tree printer

A Dafny model of two pieces of `tlox`, a TypeScript front end for the Lox
language:

- the **token model** (`src/token.ts`): the closed enumeration `TokenType`
  of 39 token kinds, whose string values are their own member names, and
  the `Token` record `{type, lexeme, object, line}`, whose fields nothing in
  the shown code changes after the constructor sets them, with its debug
  `toString`;
- the **tree printer** (`src/astPrinter.ts`): a visitor that renders an
  expression tree as a fully parenthesised prefix string. `Binary` becomes
  `(op left right)`, `Unary` `(op operand)`, `Grouping` `(group inner)`, a
  null literal `nil` and any other literal its value's `toString()`.

Files:

- `values.dfy` (module `LoxValues`): the literal value type
  `Nil | Bool | Str | Num` and the text JavaScript gives each value
  (`Stringify`), with integers rendered in decimal and proved readable back.
- `tokens.dfy` (module `Tokens`): `TokenType`, its name map `TypeName` and the
  inverse `FromName`, the declaration order `Ordinal`/`AllTokenTypes`, the
  grouping into categories, the `Token` datatype and `ToString`.
- `expr.dfy` (module `Expressions`): the expression tree `Expr`.
- `printer.dfy` (module `AstPrinter`): `Print` (the visitor as one `match`),
  the specification `Parenthesized` of `parenthesize`, the loop-based method
  `Parenthesize`, and the lemmas about the shape of the output.
- `reader.dfy` (module `PrintedForm`): a reader `Read` for the printed
  text. Reading it back gives the tree's `Form`: the tree with each
  operator token reduced to its lexeme and each literal to its text.

Naming: the TypeScript fields `type` and `object` are Dafny keywords, so
`Token`'s fields are `kind`, `lexeme`, `literal` and `line`.
`Expr`'s variants and fields follow the source's `Literal(value)`,
`Grouping(expression)`, `Unary(operator, right)` and
`Binary(left, operator, right)`.

The printer's promise, in the form the model proves it:

- `Print(Binary(l, op, r)) == "(" + op.lexeme + " " + Print(l) + " " + Print(r) + ")"`,
  and similarly for `Unary` and `Grouping` (the `group` name);
- the loop in `parenthesize` builds exactly `Parenthesized(name, renderings)`:
  `(`, the name, each rendering after one space in argument order, `)`;
- a non-literal node's text starts with `(` and ends with `)`, and if no
  lexeme and no literal text holds a parenthesis, the text holds exactly one
  `(` and one `)` per non-literal node.

A fully parenthesised prefix form looks unambiguous; this printer's
output is not. A string literal whose text is `nil` prints like the null literal.
A string literal `"1"` prints like the number 1. A unary node whose
operator lexeme is `group` prints like a grouping. The model follows the
code, and `AstPrinter.PrintNotInjective` proves each of these collisions.
Call a tree "plain" when every operator lexeme and every literal text is a
non-empty word with no space and no parenthesis, and no unary operator is
spelt `group`. For plain trees the text fixes the tree up to its `Form`:
its shape, its operator lexemes and its literal texts
(`PrintedForm.PrintUnambiguous`). This rules out the unary-`group`
collision; the two literal collisions remain among plain trees. Token
kinds and lines never appear in the text, and a literal's type cannot in
general be recovered from it.

## Model

| member | source | states |
|---|---|---|
| `LoxValues.IntToString` | src/astPrinter.ts:18 | an integer literal's text (`Number.prototype.toString` on an integer); its properties are carried by `IntToStringRoundTrip`, `IntToStringInjective` and `IntToStringPlain` |
| `LoxValues.Stringify` | src/token.ts:69 | the text a literal value takes in a template literal and under `toString()`: `null`, `true`/`false`, the string itself, the integer's text; its cases are carried by `PrintLiteral` and `ToStringExample` |
| `Tokens.ToString` | src/token.ts:68-70 | the debug text of a token; that it is kind name, lexeme and literal text joined by single spaces and splits back into them is carried by `ToStringFields` and `ToStringExample` |
| `AstPrinter.LiteralText` | src/astPrinter.ts:16-19 | a literal prints `nil` when null and its value's text otherwise; carried by `PrintNil`, `PrintLiteral` and `LiteralTextIsWord` |
| `AstPrinter.Parenthesized` | src/astPrinter.ts:25-32 | what `parenthesize` returns: it begins with `(` and the name and ends with `)`; its one- and two-argument forms are `ParenthesizedOne` and `ParenthesizedTwo`, its spacing `SpacedFront` |
| `AstPrinter.Print` | src/astPrinter.ts:4-23 | the visitor as one `match` over the four variants; its per-variant output is carried by `PrintNil`, `PrintLiteral`, `PrintBinary`, `PrintGrouping` and `PrintUnary`, its shape by `PrintBracketed` and `PrintBalanced`, its inverse on plain trees by `PrintedForm.ReadPrint` |
| `LoxValues.IntToStringRoundTrip` | src/astPrinter.ts:18 | an integer literal's text is non-empty, starts with `-` exactly when the integer is negative, and is the sign followed by the magnitude's decimal digits, which read back to the magnitude |
| `LoxValues.IntToStringInjective` | src/astPrinter.ts:18 | distinct integer literals have distinct texts |
| `LoxValues.IntToStringPlain` | src/astPrinter.ts:18 | an integer literal's text holds no parenthesis and no space |
| `LoxValues.NatToStringRoundTrip` | src/astPrinter.ts:18 | decimal digits of a natural number read back to that number |
| `Tokens.TypeName` | src/token.ts:3-48 | every kind's string value is non-empty and holds no space |
| `Tokens.FromName` | src/token.ts:3-48 | the inverse name map only answers with the kind whose string value is the name asked for |
| `Tokens.NameRoundTrip` | src/token.ts:5-47 | each kind's string value, looked up, gives back that kind |
| `Tokens.FromNameSound` | src/token.ts:5-47 | looking up a name gives a kind exactly when that kind's string value is the name |
| `Tokens.NameInjective` | src/token.ts:5-47 | two kinds have the same string value if and only if they are the same kind |
| `Tokens.KindsEnumerated` | src/token.ts:3-48 | the enumeration is closed and has 39 members: every kind sits in the declaration list at its ordinal and each position holds the kind of that ordinal |
| `Tokens.KindsDistinct` | src/token.ts:3-48 | no kind is declared twice: two positions of the declaration hold the same kind only if they are the same position |
| `Tokens.CategoryByOrdinal` | src/token.ts:4-47 | each category (single-character, one-or-two-character, literal, keyword, end of file) is a contiguous run of the declaration at the positions its comment heads |
| `Tokens.CategoryCounts` | src/token.ts:4-47 | 11 single-character, 8 one-or-two-character, 3 literal and 16 keyword kinds, and `EOF` is the only end-of-file kind; each kind is in its category's list and in no other |
| `Tokens.TokenConstruction` | src/token.ts:50-66 | a token holds exactly the type, lexeme, literal and line it was built from, and those four determine it |
| `Tokens.ToStringFields` | src/token.ts:68-70 | the debug text is the kind's name, a space, the lexeme, a space and the literal's text: splitting at the first space recovers the kind, and when the lexeme has no space the second split recovers the lexeme and the literal's text |
| `Tokens.ToStringExample` | src/token.ts:68-70 | a token with no literal prints it as `null` (`MINUS - null`); a number token prints its value (`NUMBER 12 12`) |
| `AstPrinter.Parenthesize` | src/astPrinter.ts:25-32 | the string the loop accumulates equals `Parenthesized(name, renderings)`, where the renderings are one per argument in argument order; it begins with `(` and the name and ends with `)` |
| `AstPrinter.SpacedFront` | src/astPrinter.ts:26-31 | the first rendering comes first, after exactly one space, followed by the rest in order |
| `AstPrinter.ParenthesizedOne` | src/astPrinter.ts:25-32 | with one argument the result is `(name a)`, one space between name and rendering |
| `AstPrinter.ParenthesizedTwo` | src/astPrinter.ts:25-32 | with two arguments the result is `(name a b)`, single spaces only, arguments in order |
| `AstPrinter.PrintNil` | src/astPrinter.ts:17 | a null literal renders as exactly `nil` |
| `AstPrinter.PrintLiteral` | src/astPrinter.ts:18 | a non-null literal renders as its value's text: `true`/`false`, the string itself, the integer's decimal form |
| `AstPrinter.PrintBinary` | src/astPrinter.ts:8-10 | a binary node renders as `(`, the operator lexeme, a space, the left operand, a space, the right operand, `)` |
| `AstPrinter.PrintGrouping` | src/astPrinter.ts:12-14 | a grouping renders as `(group `, the inner expression, `)` |
| `AstPrinter.PrintUnary` | src/astPrinter.ts:21-23 | a unary node renders as `(`, the operator lexeme, a space, the operand, `)` |
| `AstPrinter.PrintBracketed` | src/astPrinter.ts:8-32 | every non-literal node renders with `(` first and `)` last |
| `AstPrinter.PrintBalanced` | src/astPrinter.ts:8-32 | if no lexeme or literal text contains a parenthesis, the rendering holds one `(` and one `)` per non-literal node |
| `AstPrinter.PrintExamples` | src/astPrinter.ts:8-23 | `1 - 2 - 3` built left-nested renders `(- (- 1 2) 3)`; `!!true` renders `(! (! true))` |
| `PrintedForm.ReadPrint` | src/astPrinter.ts:8-32 | reading a plain tree's rendering, followed by nothing, a space or a `)`, gives back the tree's form and leaves exactly the text that followed |
| `PrintedForm.PrintUnambiguous` | src/astPrinter.ts:8-32 | two plain trees with the same rendering have the same shape, the same operator lexemes and the same literal texts |
| `PrintedForm.LiteralTextIsWord` | src/astPrinter.ts:16-19 | the printed texts of null, of booleans and of integers are plain words; only string literal texts can break the plainness condition |
| `AstPrinter.PrintNotInjective` | src/astPrinter.ts:16-23 | the rendering does not determine the tree: `Str("nil")` and `Nil`, `Str("1")` and `Num(1)`, and a unary node with lexeme `group` and a grouping print alike |

## Left out

- `src/index.ts`: the driver is I/O and process plumbing (reading a file, the `readline` prompt, `console` output, exit codes 64 and 65, the static `hadError` flag). Its `run` only echoes its input and `report` prints one formatted line to standard error; none of it is modelled.
- The scanner and the parser, which are not among the modelled files: nothing about token streams, precedence or syntax errors is stated.
- `src/expr.ts` and `src/types.ts` are not part of this model: `Expr` is the four-variant datatype above and the literal value type is `Nil | Bool | Str | Num`.
- The `accept`/`visit*` double dispatch: replaced by one `match` in `Print`.
- `LoxValues.Stringify`: numbers are integers only. JavaScript's `Number.prototype.toString` for fractions, exponent notation (magnitudes from 1e21), `NaN` and the infinities is floating-point formatting and is not modelled; the decimal form here is what JavaScript prints for integers of magnitude at most 2^53. Larger `Num` values have no exact JavaScript counterpart: a double above 2^53 prints its shortest round-tripping digits padded with zeros (`2**64` prints `18446744073709552000`), and integers such as 2^53 + 1 are not JavaScript numbers at all.
- `Tokens.Token`: `line` is an unbounded `int`, not a JavaScript double.
- `AstPrinter.Parenthesize`: the source's loop renders each argument by calling back into the visitor; the method calls the `Print` function instead, which is the same computation without the mutual recursion between methods.
