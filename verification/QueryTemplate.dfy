/** SQL as text with the bound values standing in their places, rendered directly from the query
    state. It says which value belongs at each placeholder without a separate parameter list. */
module QueryTemplate {
  import opened TextCodec
  import opened QueryAst

  datatype Piece = Text(text: string) | Bind(value: Value)

  type Template = seq<Piece>

  /** Dialect facts. Its callbacks return text, and keep the text they are given whole. */
  datatype Dialect = Dialect(
    quote: string -> string,
    conflictNothing: seq<string> -> string,
    conflictUpdate: seq<string> -> (string, string),
    currentTimestamp: Column -> string,
    emptyInsert: string -> string,
    encodeWrite: (Column, Value) -> Value,
    encodeCompare: (Operand, Value) -> Value,
    insertedValue: string -> string,
    integerLiteral: (string, string),
    offsetOnly: string,
    charLength: Option<string>,
    forUpdate: Option<string -> string>,
    deleteReturning: bool,
    updateReturning: bool)

  // ----- templates -----

  function Written(s: string): Template {
    [Text(s)]
  }

  function Bound(v: Value): Template {
    [Bind(v)]
  }

  function Enclosed(before: string, t: Option<Template>, after: string): Option<Template> {
    if t.None? then None else Some(Written(before) + t.value + Written(after))
  }

  function Between3(a: Option<Template>, between: string, b: Option<Template>): Option<Template> {
    if a.None? || b.None? then None else Some(a.value + Written(between) + b.value)
  }

  function Joined(parts: seq<Template>, separator: string): Template {
    if parts == [] then []
    else if |parts| == 1 then parts[0]
    else Joined(parts[..|parts| - 1], separator) + Written(separator) + parts[|parts| - 1]
  }

  function JoinedText(parts: seq<string>, separator: string): string {
    if parts == [] then ""
    else if |parts| == 1 then parts[0]
    else JoinedText(parts[..|parts| - 1], separator) + separator + parts[|parts| - 1]
  }

  /** All the templates, or none if any failed. */
  function All(parts: seq<Option<Template>>): Option<seq<Template>> {
    if parts == [] then Some([])
    else
      var first, last := All(parts[..|parts| - 1]), parts[|parts| - 1];
      if first.None? || last.None? then None else Some(first.value + [last.value])
  }

  function JoinedAll(parts: seq<Option<Template>>, separator: string): Option<Template> {
    var all := All(parts);
    if all.None? then None else Some(Joined(all.value, separator))
  }

  // ----- columns and operands -----

  function ColumnText(d: Dialect, qualified: bool, c: Column): string {
    if qualified || c.derived then d.quote(c.table) + "." + d.quote(c.name) else d.quote(c.name)
  }

  function AggregateText(d: Dialect, qualified: bool, name: string, argument: Option<Column>): string {
    if argument.None? then name + "(*)" else name + "(" + ColumnText(d, qualified, argument.value) + ")"
  }

  function ArithmeticText(op: Arithmetic): string {
    match op
    case Plus => "+"
    case Minus => "-"
    case Times => "*"
    case Coalesce => "COALESCE"
  }

  function ComparisonText(op: Comparison): string {
    match op
    case Eq => " = "
    case Ne => " != "
    case Gt => " > "
    case Gte => " >= "
    case Lt => " < "
    case Lte => " <= "
  }

  function TermTemplate(d: Dialect, qualified: bool, term: Term): Option<Template>
    decreases term, 0
  {
    match term
    case Literal(v) => Some(Bound(v))
    case Nested(e) => ExprTemplate(d, qualified, e)
  }

  function RootTemplate(d: Dialect, qualified: bool, root: Root): Option<Template>
    decreases root, 0
  {
    match root
    case ColumnRoot(c) => Some(Written(ColumnText(d, qualified, c)))
    case CaseRoot(condition, _, thenTerm, elseTerm) =>
      Enclosed("CASE WHEN ",
               Between3(Between3(PredTemplate(d, qualified, false, condition), " THEN ",
                                 TermTemplate(d, qualified, thenTerm)),
                        " ELSE ", TermTemplate(d, qualified, elseTerm)),
               " END")
  }

  function OperationTemplate(d: Dialect, qualified: bool, left: Option<Template>, op: Operation): Option<Template>
    decreases op, 0
  {
    match op
    case Lower => Enclosed("LOWER(", left, ")")
    case CharLength => if d.charLength.None? then None else Enclosed(d.charLength.value + "(", left, ")")
    case Combine(operator, right) =>
      if operator.Coalesce? then Enclosed("COALESCE(", Between3(left, ", ", TermTemplate(d, qualified, right)), ")")
      else Enclosed("(", Between3(left, " " + ArithmeticText(operator) + " ", TermTemplate(d, qualified, right)), ")")
  }

  function OperationsTemplate(d: Dialect, qualified: bool, root: Option<Template>, ops: seq<Operation>): Option<Template>
    decreases ops, 0
  {
    if ops == [] then root
    else OperationTemplate(d, qualified, OperationsTemplate(d, qualified, root, ops[..|ops| - 1]), ops[|ops| - 1])
  }

  function ExprTemplate(d: Dialect, qualified: bool, e: Expr): Option<Template>
    decreases e, 0
  {
    OperationsTemplate(d, qualified, RootTemplate(d, qualified, e.root), e.operations)
  }

  function OperandTemplate(d: Dialect, qualified: bool, operand: Operand): Option<Template>
    decreases operand, 0
  {
    match operand
    case ColumnOperand(c) => Some(Written(ColumnText(d, qualified, c)))
    case AggregateOperand(name, argument) => Some(Written(AggregateText(d, qualified, name, argument)))
    case ExprOperand(e) => ExprTemplate(d, qualified, e)
    case LiteralOperand(n) => Enclosed(d.integerLiteral.0, Some(Bound(Int(n))), d.integerLiteral.1)
  }

  // ----- predicates -----

  function BoundAll(d: Dialect, operand: Operand, values: seq<Value>): Template {
    if values == [] then []
    else if |values| == 1 then Bound(d.encodeCompare(operand, values[0]))
    else
      BoundAll(d, operand, values[..|values| - 1]) + Written(", ")
      + Bound(d.encodeCompare(operand, values[|values| - 1]))
  }

  predicate IsTextColumn(operand: Operand) {
    operand.ColumnOperand? && operand.column.textual
  }

  function PredTemplate(d: Dialect, qualified: bool, withCtes: bool, p: Pred): Option<Template>
    decreases p, 0
  {
    match p
    case Compare(operand, op, value) =>
      if value.Null? then None
      else Between3(OperandTemplate(d, qualified, operand), ComparisonText(op),
                    Some(Bound(d.encodeCompare(operand, value))))
    case NullTest(operand, negated) =>
      Enclosed("", OperandTemplate(d, qualified, operand), if negated then " IS NOT NULL" else " IS NULL")
    case Member(operand, values, negated) =>
      if values == [] || Null in values then None
      else Enclosed("", Between3(OperandTemplate(d, qualified, operand), if negated then " NOT IN (" else " IN (",
                                 Some(BoundAll(d, operand, values))), ")")
    case Between(operand, low, high) =>
      if low.Null? || high.Null? then None
      else Between3(Between3(OperandTemplate(d, qualified, operand), " BETWEEN ",
                             Some(Bound(d.encodeCompare(operand, low)))),
                    " AND ", Some(Bound(d.encodeCompare(operand, high))))
    case Like(operand, pattern, negated) =>
      if !IsTextColumn(operand) then None
      else Between3(OperandTemplate(d, qualified, operand), if negated then " NOT LIKE " else " LIKE ",
                    Some(Bound(d.encodeCompare(operand, Str(pattern)))))
    case CompareOperand(operand, op, other) =>
      Between3(OperandTemplate(d, qualified, operand), ComparisonText(op), OperandTemplate(d, qualified, other))
    case CompareScalar(operand, op, scalar) =>
      Between3(OperandTemplate(d, qualified, operand), ComparisonText(op), ScalarTemplate(d, withCtes, scalar))
    case MemberQuery(operand, query, negated) =>
      if !SingleColumn(query.select) then None
      else Enclosed("", Between3(OperandTemplate(d, qualified, operand), if negated then " NOT IN (" else " IN (",
                                 NestedTemplate(d, withCtes, query)), ")")
    case Exists(query, negated) =>
      Enclosed(if negated then "NOT EXISTS (" else "EXISTS (", NestedTemplate(d, withCtes, query), ")")
    case Compound(conjunction, children) =>
      if |children| != 2 then None
      else Enclosed("(", Between3(PredTemplate(d, qualified, withCtes, children[0]),
                                  if conjunction then ") AND (" else ") OR (",
                                  PredTemplate(d, qualified, withCtes, children[1])), ")")
    case Negated(child) => Enclosed("NOT (", PredTemplate(d, qualified, withCtes, child), ")")
  }

  predicate SingleColumn(s: Select) {
    !s.wholeModel && s.labels.None? && |s.fields| == 1
  }

  /** A subquery of a write brings its own WITH definitions; within a select they are hoisted. */
  function NestedTemplate(d: Dialect, withCtes: bool, q: Query): Option<Template>
    decreases q, 2
  {
    if withCtes then StatementTemplate(d, true, q) else SelectTemplate(d, true, None, q.select)
  }

  function ScalarTemplate(d: Dialect, withCtes: bool, q: Query): Option<Template>
    decreases q, 3
  {
    if !SingleColumn(q.select) then None
    else Enclosed("(", NestedTemplate(d, withCtes, q), ")")
  }

  function PredItems(d: Dialect, qualified: bool, withCtes: bool, ps: seq<Pred>): seq<Option<Template>>
    decreases ps, 0
  {
    seq(|ps|, i requires 0 <= i < |ps| => Enclosed("(", PredTemplate(d, qualified, withCtes, ps[i]), ")"))
  }

  function PredsTemplate(d: Dialect, qualified: bool, withCtes: bool, ps: seq<Pred>): Option<Template>
    decreases ps, 1
  {
    JoinedAll(PredItems(d, qualified, withCtes, ps), " AND ")
  }

  // ----- selects -----

  function RelationText(d: Dialect, r: Relation, marker: Option<Marker>): string {
    match r
    case CteOf(name, definition, _) =>
      if d.quote(definition) == d.quote(name) then d.quote(definition)
      else d.quote(definition) + " AS " + d.quote(name)
    case Physical(name) =>
      if marker.Some? then MarkedText(d, name, marker.value, name) else d.quote(name)
    case AliasOf(name, target) =>
      if marker.Some? then MarkedText(d, target, marker.value, name) else d.quote(target) + " AS " + d.quote(name)
  }

  function MarkedText(d: Dialect, physical: string, marker: Marker, name: string): string {
    "(SELECT " + JoinedText(seq(|marker.columns|, i requires 0 <= i < |marker.columns| => d.quote(marker.columns[i])), ", ")
    + ", 1 AS " + d.quote(marker.presence) + " FROM " + d.quote(physical) + ") AS " + d.quote(name)
  }

  function SourceTemplate(d: Dialect, source: Source): Option<Template>
    decreases source, 0
  {
    match source
    case Direct(relation, marker) => Some(Written(RelationText(d, relation, marker)))
    case Derived(left, all, right, alias) =>
      Enclosed("(", Between3(SelectTemplate(d, false, None, left), if all then " UNION ALL " else " UNION ",
                             SelectTemplate(d, false, None, right)), ") AS " + d.quote(alias))
  }

  function FieldTemplate(d: Dialect, qualified: bool, field: Field): Option<Template>
    decreases field, 0
  {
    match field
    case Single(operand) => OperandTemplate(d, qualified, operand)
    case Scalar(query) => ScalarTemplate(d, false, query)
  }

  function Labelled(d: Dialect, t: Option<Template>, name: string): Option<Template> {
    Enclosed("", t, " AS " + d.quote(name))
  }

  function FieldItems(d: Dialect, qualified: bool, s: Select): seq<Option<Template>>
    requires s.labels.Some? ==> |s.labels.value| == |s.fields|
    decreases s, 0
  {
    seq(|s.fields|, i requires 0 <= i < |s.fields| =>
      if s.labels.Some? then Labelled(d, FieldTemplate(d, qualified, s.fields[i]), s.labels.value[i])
      else FieldTemplate(d, qualified, s.fields[i]))
  }

  function FieldsTemplate(d: Dialect, qualified: bool, s: Select, presence: Option<string>): Option<Template>
    decreases s, 1
  {
    if s.labels.Some? && |s.labels.value| != |s.fields| then None
    else
      var fields := FieldItems(d, qualified, s);
      JoinedAll(if presence.None? then fields else fields + [Some(Written("1 AS " + d.quote(presence.value)))], ", ")
  }

  function JoinTemplate(d: Dialect, join: Join): Option<Template>
    decreases join, 0
  {
    Enclosed((if join.outer then "LEFT" else "INNER") + " JOIN " + RelationText(d, join.relation, join.marker) + " ON ",
             PredTemplate(d, true, false, join.on), "")
  }

  function JoinItems(d: Dialect, joins: seq<Join>): seq<Option<Template>>
    decreases joins, 0
  {
    seq(|joins|, i requires 0 <= i < |joins| => JoinTemplate(d, joins[i]))
  }

  function OrderingTemplate(d: Dialect, qualified: bool, o: Ordering): Option<Template>
    decreases o, 0
  {
    var operand := OperandTemplate(d, qualified, o.operand);
    if operand.Some? && (exists i :: 0 <= i < |operand.value| && operand.value[i].Bind?) then None
    else Enclosed("", operand, if o.descending then " DESC" else " ASC")
  }

  function OrderingItems(d: Dialect, qualified: bool, orderings: seq<Ordering>): seq<Option<Template>>
    decreases orderings, 0
  {
    seq(|orderings|, i requires 0 <= i < |orderings| => OrderingTemplate(d, qualified, orderings[i]))
  }

  predicate IsAggregate(operand: Operand) {
    operand.AggregateOperand?
  }

  predicate MayLock(d: Dialect, s: Select, nested: bool) {
    && d.forUpdate.Some? && s.source.Direct? && !s.source.relation.CteOf? && !nested
    && !s.distinct && s.joins == [] && s.groupings == [] && s.having == []
    && (forall f :: f in s.fields ==> !(f.Single? && IsAggregate(f.operand)))
    && (forall o :: o in s.orderings ==> !IsAggregate(o.operand))
  }

  function LimitClauses(d: Dialect, s: Select): seq<Option<Template>> {
    (if s.limit.None? then [] else [Some(Written("LIMIT ") + Bound(Int(s.limit.value)))])
    + (if s.offset.None? then []
       else (if s.limit.None? then [Some(Written(d.offsetOnly))] else [])
            + [Some(Written("OFFSET ") + Bound(Int(s.offset.value)))])
  }

  function LockClauses(d: Dialect, s: Select, nested: bool): seq<Option<Template>> {
    if s.lock.None? then []
    else if !MayLock(d, s, nested) then [None]
    else [Some(Written(d.forUpdate.value(s.lock.value)))]
  }

  function GroupText(d: Dialect, qualified: bool, columns: seq<Column>): string {
    "GROUP BY "
    + JoinedText(seq(|columns|, i requires 0 <= i < |columns| => ColumnText(d, qualified, columns[i])), ", ")
  }

  function HeadClause(d: Dialect, qualified: bool, presence: Option<string>, s: Select): Option<Template>
    decreases s, 2
  {
    Enclosed(if s.distinct then "SELECT DISTINCT " else "SELECT ",
             Between3(FieldsTemplate(d, qualified, s, presence), " FROM ", SourceTemplate(d, s.source)), "")
  }

  function FilterClauses(d: Dialect, qualified: bool, keyword: string, ps: seq<Pred>): seq<Option<Template>>
    decreases ps, 2
  {
    if ps == [] then [] else [Enclosed(keyword, PredsTemplate(d, qualified, false, ps), "")]
  }

  function GroupClauses(d: Dialect, qualified: bool, columns: seq<Column>): seq<Option<Template>> {
    if columns == [] then [] else [Some(Written(GroupText(d, qualified, columns)))]
  }

  function OrderClauses(d: Dialect, qualified: bool, orderings: seq<Ordering>): seq<Option<Template>>
    decreases orderings, 1
  {
    if orderings == [] then []
    else [Enclosed("ORDER BY ", JoinedAll(OrderingItems(d, qualified, orderings), ", "), "")]
  }

  /** The clauses of a select in the order they are written. */
  function SelectClauses(d: Dialect, nested: bool, presence: Option<string>, s: Select): seq<Option<Template>>
    decreases s, 3
  {
    var qualified := nested || s.joins != [];
    [HeadClause(d, qualified, presence, s)] + JoinItems(d, s.joins)
    + FilterClauses(d, qualified, "WHERE ", s.predicates) + GroupClauses(d, qualified, s.groupings)
    + FilterClauses(d, qualified, "HAVING ", s.having) + OrderClauses(d, qualified, s.orderings)
    + LimitClauses(d, s) + LockClauses(d, s, nested)
  }

  function SelectTemplate(d: Dialect, nested: bool, presence: Option<string>, s: Select): Option<Template>
    decreases s, 4
  {
    JoinedAll(SelectClauses(d, nested, presence, s), " ")
  }

  function DefinitionTemplate(d: Dialect, definition: Definition): Option<Template>
    decreases definition, 0
  {
    var state := SelectTemplate(d, false, definition.presence, definition.state);
    Enclosed(d.quote(definition.name) + " AS (",
             if definition.step.None? then state
             else Between3(state, " UNION ALL ", SelectTemplate(d, false, definition.presence, definition.step.value)),
             ")")
  }

  function DefinitionItems(d: Dialect, definitions: seq<Definition>): seq<Option<Template>>
    decreases definitions, 0
  {
    seq(|definitions|, i requires 0 <= i < |definitions| => DefinitionTemplate(d, definitions[i]))
  }

  predicate AnyRecursive(definitions: seq<Definition>) {
    exists i :: 0 <= i < |definitions| && definitions[i].step.Some?
  }

  function StatementTemplate(d: Dialect, nested: bool, q: Query): Option<Template>
    decreases q, 1
  {
    var select := SelectTemplate(d, nested, None, q.select);
    if q.definitions == [] then select
    else
      Between3(Enclosed(if AnyRecursive(q.definitions) then "WITH RECURSIVE " else "WITH ",
                        JoinedAll(DefinitionItems(d, q.definitions), ", "), ""),
               " ", select)
  }

  // ----- writes -----

  function ReturningText(d: Dialect, returning: Option<Returning>): Option<string> {
    if returning.None? then Some("")
    else
      var r := returning.value;
      if r.labels.Some? && |r.labels.value| != |r.names| then None
      else
        Some(" RETURNING "
             + JoinedText(seq(|r.names|, i requires 0 <= i < |r.names| =>
                 if r.labels.Some? then d.quote(r.names[i]) + " AS " + d.quote(r.labels.value[i])
                 else d.quote(r.names[i])), ", "))
  }

  function AssignmentTemplate(d: Dialect, upsert: bool, a: Assignment): Option<Template> {
    var column := d.quote(a.column.name);
    match a.source
    case InsertedValue => if upsert then Some(Written(column + " = " + d.insertedValue(column))) else None
    case CurrentTimestamp => Some(Written(column + " = " + d.currentTimestamp(a.column)))
    case Computed(e) => if upsert then None else Enclosed(column + " = ", ExprTemplate(d, false, e), "")
    case Plain(v) => Some(Written(column + " = ") + Bound(d.encodeWrite(a.column, v)))
  }

  function AssignmentItems(d: Dialect, upsert: bool, assignments: seq<Assignment>): seq<Option<Template>> {
    seq(|assignments|, i requires 0 <= i < |assignments| => AssignmentTemplate(d, upsert, assignments[i]))
  }

  function AssignmentsTemplate(d: Dialect, upsert: bool, assignments: seq<Assignment>): Option<Template> {
    JoinedAll(AssignmentItems(d, upsert, assignments), ", ")
  }

  function Quoted(d: Dialect, columns: seq<Column>): seq<string> {
    seq(|columns|, i requires 0 <= i < |columns| => d.quote(columns[i].name))
  }

  function ConflictTemplate(d: Dialect, conflict: Conflict, returning: bool): Option<Template> {
    match conflict
    case Unhandled => Some([])
    case DoNothing(targets) => if returning then None else Some(Written(d.conflictNothing(Quoted(d, targets))))
    case DoUpdate(targets, assignments) =>
      var around := d.conflictUpdate(Quoted(d, targets));
      Enclosed(around.0, AssignmentsTemplate(d, true, assignments), around.1)
  }

  /** The columns a row sets, with the encoded values it sets them to. */
  function SetColumns(columns: seq<Column>, values: seq<Option<Value>>): seq<Column>
    requires |columns| == |values|
  {
    if columns == [] then []
    else
      SetColumns(columns[..|columns| - 1], values[..|values| - 1])
      + if values[|values| - 1].None? then [] else [columns[|columns| - 1]]
  }

  function SetValues(d: Dialect, columns: seq<Column>, values: seq<Option<Value>>): seq<Value>
    requires |columns| == |values|
  {
    if columns == [] then []
    else
      SetValues(d, columns[..|columns| - 1], values[..|values| - 1])
      + if values[|values| - 1].None? then []
        else [d.encodeWrite(columns[|columns| - 1], values[|values| - 1].value)]
  }

  function RowTemplate(values: seq<Value>): Template {
    Written("(") + Joined(seq(|values|, i requires 0 <= i < |values| => Bound(values[i])), ", ") + Written(")")
  }

  /** Every row of the model has a slot for every column. */
  predicate WellFormed(insert: Insert) {
    forall i :: 0 <= i < |insert.rows| ==> |insert.rows[i].values| == |insert.columns|
  }

  predicate SameColumns(insert: Insert)
    requires WellFormed(insert) && insert.rows != []
  {
    forall i :: 0 <= i < |insert.rows| ==>
      && insert.rows[i].model == insert.model
      && SetColumns(insert.columns, insert.rows[i].values) == SetColumns(insert.columns, insert.rows[0].values)
  }

  function RowsTemplate(d: Dialect, insert: Insert): Template
    requires WellFormed(insert)
  {
    Joined(seq(|insert.rows|, i requires 0 <= i < |insert.rows| =>
             RowTemplate(SetValues(d, insert.columns, insert.rows[i].values))), ", ")
  }

  function InsertTemplate(d: Dialect, insert: Insert): Option<Template>
    requires WellFormed(insert)
  {
    if insert.rows == [] || !SameColumns(insert) then None
    else
      var columns := SetColumns(insert.columns, insert.rows[0].values);
      var returning := ReturningText(d, insert.returning);
      if returning.None? then None
      else if columns == [] then
        if |insert.rows| > 1 || !insert.conflict.Unhandled? then None
        else Some(Written(d.emptyInsert(d.quote(insert.table)) + returning.value))
      else
        Enclosed("INSERT INTO " + d.quote(insert.table) + " (" + JoinedText(Quoted(d, columns), ", ") + ") VALUES ",
                 Between3(Some(RowsTemplate(d, insert)), "",
                          ConflictTemplate(d, insert.conflict, insert.returning.Some?)),
                 returning.value)
  }

  function WhereTemplate(d: Dialect, predicates: seq<Pred>): Option<Template> {
    if predicates == [] then Some([]) else Enclosed(" WHERE ", PredsTemplate(d, false, true, predicates), "")
  }

  function UpdateTemplate(d: Dialect, update: Update): Option<Template> {
    var returning := ReturningText(d, update.returning);
    if update.assignments == [] || (!update.everyRow && update.predicates == []) || !Independent(update.assignments)
       || returning.None? || (update.returning.Some? && !d.updateReturning) then None
    else
      Enclosed("UPDATE " + d.quote(update.table) + " SET ",
               Between3(AssignmentsTemplate(d, false, update.assignments), "", WhereTemplate(d, update.predicates)),
               returning.value)
  }

  function DeleteTemplate(d: Dialect, delete: Delete): Option<Template> {
    var returning := ReturningText(d, delete.returning);
    if (!delete.everyRow && delete.predicates == []) || returning.None?
       || (delete.returning.Some? && !d.deleteReturning) then None
    else
      Enclosed("DELETE FROM " + d.quote(delete.table), WhereTemplate(d, delete.predicates), returning.value)
  }
}
