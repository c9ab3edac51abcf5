/** Query states as the builder leaves them: values, expressions, predicates, selects and writes. */
module QueryAst {
  import opened TextCodec

  datatype Kind = IntKind | RealKind | TextKind | OtherKind

  datatype Value = Null | Int(number: int) | Real(amount: real) | Str(text: string)

  /** A stored column, or, when `derived`, an output or presence marker of a definition or joined source.
      `textual` says whether the storage type is a SQL text type. */
  datatype Column = Column(table: string, name: string, kind: Kind, nullable: bool, textual: bool, derived: bool)

  // ----- computed values -----

  datatype Arithmetic = Plus | Minus | Times | Coalesce

  datatype Operation = Combine(operator: Arithmetic, right: Term) | Lower | CharLength

  datatype Term = Literal(value: Value) | Nested(expr: Expr)

  datatype Root =
    | ColumnRoot(column: Column)
    | CaseRoot(condition: Pred, columns: seq<Column>, thenTerm: Term, elseTerm: Term)

  datatype Expr = Expr(root: Root, operations: seq<Operation>, kind: Kind, nullable: bool, owner: string)

  // ----- predicates -----

  datatype Operand =
    | ColumnOperand(column: Column)
    | AggregateOperand(function_: string, argument: Option<Column>)
    | ExprOperand(expr: Expr)
    | LiteralOperand(number: int)

  datatype Comparison = Eq | Ne | Gt | Gte | Lt | Lte

  datatype Pred =
    | Compare(operand: Operand, operator: Comparison, value: Value)
    | NullTest(operand: Operand, negated: bool)
    | Member(operand: Operand, values: seq<Value>, negated: bool)
    | Between(operand: Operand, low: Value, high: Value)
    | Like(operand: Operand, pattern: string, negated: bool)
    | CompareOperand(operand: Operand, operator: Comparison, other: Operand)
    | CompareScalar(operand: Operand, operator: Comparison, scalar: Query)
    | MemberQuery(operand: Operand, query: Query, negated: bool)
    | Exists(query: Query, negated: bool)
    | Compound(conjunction: bool, children: seq<Pred>)
    | Negated(child: Pred)

  // ----- selects -----

  /** A select with the WITH definitions it reaches, in dependency order. */
  datatype Query = Query(select: Select, definitions: seq<Definition>)

  datatype Definition = Definition(name: string, state: Select, step: Option<Select>, presence: Option<string>)

  /** A definition is referred to by its name and, for identity, its number. */
  datatype Relation =
    | Physical(name: string)
    | AliasOf(name: string, target: string)
    | CteOf(name: string, definition: string, number: nat)

  /** The columns and presence marker of a joined source that may be absent. */
  datatype Marker = Marker(columns: seq<string>, presence: string)

  datatype Source =
    | Direct(relation: Relation, marker: Option<Marker>)
    | Derived(left: Select, all: bool, right: Select, alias: string)

  datatype Field = Single(operand: Operand) | Scalar(query: Query)

  datatype Join = Join(outer: bool, relation: Relation, marker: Option<Marker>, on: Pred)

  datatype Ordering = Ordering(operand: Operand, descending: bool)

  /** `id` is the identity of the state object. */
  datatype Select = Select(
    id: nat, distinct: bool, fields: seq<Field>, wholeModel: bool, labels: Option<seq<string>>, source: Source, joins: seq<Join>,
    predicates: seq<Pred>, groupings: seq<Column>, having: seq<Pred>, orderings: seq<Ordering>,
    limit: Option<int>, offset: Option<int>, lock: Option<string>)

  // ----- writes -----

  datatype Assigned = InsertedValue | CurrentTimestamp | Computed(expr: Expr) | Plain(value: Value)

  /** `id` is the identity of the assignment object. */
  datatype Assignment = Assignment(id: nat, column: Column, source: Assigned)

  datatype Returning = Returning(names: seq<string>, labels: Option<seq<string>>)

  datatype Conflict =
    | Unhandled
    | DoNothing(targets: seq<Column>)
    | DoUpdate(targets: seq<Column>, assignments: seq<Assignment>)

  /** A pending row; `None` marks a value the database generates. */
  datatype Row = Row(model: string, values: seq<Option<Value>>)

  datatype Insert = Insert(
    model: string, table: string, columns: seq<Column>, rows: seq<Row>, conflict: Conflict, returning: Option<Returning>)

  datatype Update = Update(
    table: string, assignments: seq<Assignment>, everyRow: bool, predicates: seq<Pred>, returning: Option<Returning>)

  datatype Delete = Delete(table: string, everyRow: bool, predicates: seq<Pred>, returning: Option<Returning>)

  // ----- columns an expression reads -----

  function TermColumns(term: Term): seq<Column>
    decreases term, 0
  {
    if term.Literal? then [] else ReferencedColumns(term.expr)
  }

  function OperationColumns(op: Operation): seq<Column>
    decreases op, 0
  {
    if op.Combine? then TermColumns(op.right) else []
  }

  function OperationsColumns(ops: seq<Operation>): seq<Column>
    decreases ops, 0
  {
    if ops == [] then [] else OperationsColumns(ops[..|ops| - 1]) + OperationColumns(ops[|ops| - 1])
  }

  /** Every column the expression reads, through nested operands and both branches of a CASE. */
  function ReferencedColumns(e: Expr): seq<Column>
    decreases e, 0
  {
    (match e.root
     case ColumnRoot(c) => [c]
     case CaseRoot(_, columns, thenTerm, elseTerm) =>
       columns + TermColumns(thenTerm) + TermColumns(elseTerm))
    + OperationsColumns(e.operations)
  }

  predicate ReadsAnother(assignments: seq<Assignment>, a: Assignment) {
    && a.source.Computed?
    && exists i :: 0 <= i < |assignments| && assignments[i].column in ReferencedColumns(a.source.expr)
         && assignments[i].id != a.id
  }

  /** No computed value reads a column that another assignment of the statement writes. */
  predicate Independent(assignments: seq<Assignment>) {
    forall i :: 0 <= i < |assignments| ==> !ReadsAnother(assignments, assignments[i])
  }
}
