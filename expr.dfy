/** The expression tree the parser builds and the printer walks. Every node
    owns its children, so a value of this type is a finite tree whose leaves
    are literals. */
module Expressions {
  import opened LoxValues
  import opened Tokens

  datatype Expr =
    | Literal(value: LoxObject)
    | Grouping(expression: Expr)
    | Unary(operator: Token, right: Expr)
    | Binary(left: Expr, operator: Token, right: Expr)
}
