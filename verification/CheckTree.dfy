/** The bound CHECK expression tree shared by the printer, the catalog reader and the normalizer. */
module CheckTree {
  import opened TextCodec

  /** The operator strings the binder and the catalog parser use. */
  datatype Operator =
    | Column | Literal
    | Not | And | Or
    | Eq | Ne | Gt | Gte | Lt | Lte
    | IsNull | IsNotNull
    | In | NotIn
    | Between

  /** A column name, a literal's text or integer, or nothing. */
  datatype Value = NoValue | Text(text: string) | Integer(number: int)

  datatype CheckExpression =
    CheckExpression(operator: Operator, arguments: seq<CheckExpression>, value: Value)

  function ColumnRef(name: string): CheckExpression {
    CheckExpression(Column, [], Text(name))
  }

  function LiteralOf(value: Value): CheckExpression {
    CheckExpression(Literal, [], value)
  }

  function Node(operator: Operator, arguments: seq<CheckExpression>): CheckExpression {
    CheckExpression(operator, arguments, NoValue)
  }

  predicate IsLeaf(e: CheckExpression) {
    e.operator.Column? || e.operator.Literal?
  }

  predicate IsComparison(op: Operator) {
    op.Eq? || op.Ne? || op.Gt? || op.Gte? || op.Lt? || op.Lte?
  }

  /** Every NOT has an operand, as the trees the binder and the catalog parser build do. */
  predicate NotsHaveOperand(e: CheckExpression)
    decreases e, 1
  {
    && (e.operator.Not? ==> e.arguments != [])
    && AllNotsHaveOperand(e.arguments)
  }

  predicate AllNotsHaveOperand(es: seq<CheckExpression>)
    decreases es, 0
  {
    es == [] || (NotsHaveOperand(es[0]) && AllNotsHaveOperand(es[1..]))
  }

  /** A CHECK as declared or as read from the catalog, where it may be unnamed or unreadable. */
  datatype CheckShape = CheckShape(name: Option<string>, expression: Option<CheckExpression>)

  /** The verdict on one compared fact. */
  datatype Status = Matched | Drift | Unchecked
}
