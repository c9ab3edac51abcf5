/** Computed values: how they are built, what they evaluate to on a row, and why reading them back is
    safe. Arithmetic is ideal: integers and reals without overflow or rounding. */
module Expressions {
  import opened TextCodec
  import opened ThreeValued
  import opened QueryAst

  // ----- evaluation -----

  type RowValues = Column -> Value

  /** Backend facts: comparisons yield true, false or unknown. */
  datatype Engine = Engine(
    compare: (Value, Comparison, Value) -> Logic,
    like: (Value, string) -> Logic,
    lower: string -> string)

  function AnyEqual(s: Engine, v: Value, values: seq<Value>): Logic {
    if values == [] then False
    else Or3(AnyEqual(s, v, values[..|values| - 1]), s.compare(v, Eq, values[|values| - 1]))
  }

  function Negate(negated: bool, a: Logic): Logic {
    if negated then Not3(a) else a
  }

  function Amount(v: Value): real {
    match v
    case Int(n) => n as real
    case Real(r) => r
    case _ => 0.0
  }

  function IntegerResult(op: Arithmetic, a: int, b: int): int {
    match op
    case Minus => a - b
    case Times => a * b
    case _ => a + b
  }

  function RealResult(op: Arithmetic, a: real, b: real): real {
    match op
    case Minus => a - b
    case Times => a * b
    case _ => a + b
  }

  /** SQL NULL propagates through arithmetic; COALESCE is the first operand that is not NULL. */
  function Combined(op: Arithmetic, a: Value, b: Value): Value {
    if op.Coalesce? then if a.Null? then b else a
    else if a.Null? || b.Null? then Null
    else if a.Int? && b.Int? then Int(IntegerResult(op, a.number, b.number))
    else Real(RealResult(op, Amount(a), Amount(b)))
  }

  function TermValue(s: Engine, row: RowValues, term: Term): Value
    decreases term, 0
  {
    if term.Literal? then term.value else ExprValue(s, row, term.expr)
  }

  function RootValue(s: Engine, row: RowValues, root: Root): Value
    decreases root, 0
  {
    match root
    case ColumnRoot(c) => row(c)
    case CaseRoot(condition, _, thenTerm, elseTerm) =>
      if Truth(s, row, condition) == True then TermValue(s, row, thenTerm) else TermValue(s, row, elseTerm)
  }

  function OperationValue(s: Engine, row: RowValues, left: Value, op: Operation): Value
    decreases op, 0
  {
    match op
    case Lower => if left.Str? then Str(s.lower(left.text)) else Null
    case CharLength => if left.Str? then Int(|left.text|) else Null
    case Combine(operator, right) => Combined(operator, left, TermValue(s, row, right))
  }

  function OperationsValue(s: Engine, row: RowValues, root: Value, ops: seq<Operation>): Value
    decreases ops, 0
  {
    if ops == [] then root
    else OperationValue(s, row, OperationsValue(s, row, root, ops[..|ops| - 1]), ops[|ops| - 1])
  }

  function ExprValue(s: Engine, row: RowValues, e: Expr): Value
    decreases e, 0
  {
    OperationsValue(s, row, RootValue(s, row, e.root), e.operations)
  }

  function OperandValue(s: Engine, row: RowValues, operand: Operand): Value
    decreases operand, 0
  {
    match operand
    case ColumnOperand(c) => row(c)
    case ExprOperand(e) => ExprValue(s, row, e)
    case LiteralOperand(n) => Int(n)
    case AggregateOperand(_, _) => Null
  }

  /** The truth of a row-local condition; one that is not row-local is left unknown. */
  function Truth(s: Engine, row: RowValues, p: Pred): Logic
    decreases p, 0
  {
    match p
    case Compare(operand, op, value) => s.compare(OperandValue(s, row, operand), op, value)
    case NullTest(operand, negated) => Known(OperandValue(s, row, operand).Null? != negated)
    case Member(operand, values, negated) => Negate(negated, AnyEqual(s, OperandValue(s, row, operand), values))
    case Between(operand, low, high) =>
      And3(s.compare(OperandValue(s, row, operand), Gte, low), s.compare(OperandValue(s, row, operand), Lte, high))
    case Like(operand, pattern, negated) => Negate(negated, s.like(OperandValue(s, row, operand), pattern))
    case CompareOperand(operand, op, other) =>
      s.compare(OperandValue(s, row, operand), op, OperandValue(s, row, other))
    case Compound(conjunction, children) =>
      if |children| != 2 then Unknown
      else if conjunction then And3(Truth(s, row, children[0]), Truth(s, row, children[1]))
      else Or3(Truth(s, row, children[0]), Truth(s, row, children[1]))
    case Negated(child) => Not3(Truth(s, row, child))
    case _ => Unknown
  }

  // ----- what a condition reads -----

  function OperandInputs(operand: Operand): Option<seq<Column>> {
    match operand
    case ColumnOperand(c) => if c.derived then None else Some([c])
    case ExprOperand(e) => Some(ReferencedColumns(e))
    case _ => None
  }

  function Joint(a: Option<seq<Column>>, b: Option<seq<Column>>): Option<seq<Column>> {
    if a.None? || b.None? then None else Some(a.value + b.value)
  }

  /** The columns a CASE condition reads, or nothing when it is not row-local. */
  function ConditionInputs(p: Pred): Option<seq<Column>>
    decreases p, 1
  {
    match p
    case CompareScalar(_, _, _) => None
    case MemberQuery(_, _, _) => None
    case Exists(_, _) => None
    case CompareOperand(operand, _, other) => Joint(OperandInputs(operand), OperandInputs(other))
    case Compound(_, children) => AllInputs(children)
    case Negated(child) => ConditionInputs(child)
    case _ => OperandInputs(p.operand)
  }

  function AllInputs(ps: seq<Pred>): Option<seq<Column>>
    decreases ps, 0
  {
    if ps == [] then Some([]) else Joint(AllInputs(ps[..|ps| - 1]), ConditionInputs(ps[|ps| - 1]))
  }

  // ----- building -----

  const MIN_INTEGER := -0x8000_0000_0000_0000
  const MAX_INTEGER := 0x7FFF_FFFF_FFFF_FFFF

  predicate Native(kind: Kind) {
    !kind.OtherKind?
  }

  predicate OfKind(v: Value, kind: Kind) {
    match kind
    case IntKind => v.Int?
    case RealKind => v.Real?
    case TextKind => v.Str?
    case OtherKind => false
  }

  predicate IsInteger(v: Value) {
    v.Int? && MIN_INTEGER <= v.number <= MAX_INTEGER
  }

  /** A literal of the expression's own domain; a real expression also takes integers. */
  predicate Encodes(kind: Kind, v: Value) {
    || v.Null?
    || (v.Int? && IsInteger(v) && (kind.IntKind? || kind.RealKind?))
    || (v.Real? && kind.RealKind?)
    || (v.Str? && kind.TextKind?)
  }

  function Widened(kind: Kind, v: Value): Value {
    if kind.RealKind? && v.Int? then Real(v.number as real) else v
  }

  function TermNullable(term: Term): bool {
    if term.Literal? then term.value.Null? else term.expr.nullable
  }

  /** A column as an expression, when its stored and logical types agree. */
  function OfColumn(c: Column): Option<Expr> {
    if Native(c.kind) then Some(Expr(ColumnRoot(c), [], c.kind, c.nullable, c.table)) else None
  }

  function Compose(left: Expr, op: Arithmetic, right: Term): Option<Expr> {
    if !op.Coalesce? && !(left.kind.IntKind? || left.kind.RealKind?) then None
    else if right.Nested? && (right.expr.owner != left.owner || right.expr.kind != left.kind) then None
    else if right.Literal? && !Encodes(left.kind, right.value) then None
    else
      var term := if right.Literal? && op.Coalesce? then Literal(Widened(left.kind, right.value)) else right;
      var nullable := if op.Coalesce? then left.nullable && TermNullable(term) else left.nullable || TermNullable(term);
      Some(left.(operations := left.operations + [Combine(op, term)], nullable := nullable))
  }

  function LowerOf(e: Expr): Option<Expr> {
    if e.kind.TextKind? then Some(e.(operations := e.operations + [Lower])) else None
  }

  function CharLengthOf(e: Expr): Option<Expr> {
    if e.kind.TextKind? then Some(e.(kind := IntKind, operations := e.operations + [CharLength])) else None
  }

  function KindOf(v: Value): Kind
    requires !v.Null?
  {
    match v
    case Int(_) => IntKind
    case Real(_) => RealKind
    case Str(_) => TextKind
  }

  function TermKinds(term: Term): set<Kind> {
    if term.Nested? then {term.expr.kind} else if term.value.Null? then {} else {KindOf(term.value)}
  }

  predicate IsIntegerExpr(term: Term) {
    term.Nested? && term.expr.kind.IntKind?
  }

  /** The branches' common domain: one kind, where integer literals may join a real branch. */
  function BranchKind(a: Term, b: Term): Option<Kind> {
    var kinds := TermKinds(a) + TermKinds(b);
    if kinds == {IntKind} then Some(IntKind)
    else if kinds == {TextKind} then Some(TextKind)
    else if kinds == {RealKind} then Some(RealKind)
    else if kinds == {IntKind, RealKind} && !IsIntegerExpr(a) && !IsIntegerExpr(b) then Some(RealKind)
    else None
  }

  predicate BranchFits(kind: Kind, owner: string, term: Term) {
    if term.Nested? then term.expr.owner == owner else Encodes(kind, term.value)
  }

  function BranchTerm(kind: Kind, term: Term): Term {
    if term.Nested? then term else Literal(Widened(kind, term.value))
  }

  function BuildCase(condition: Pred, thenTerm: Term, elseTerm: Term): Option<Expr> {
    var inputs := ConditionInputs(condition);
    if inputs.None? || inputs.value == [] then None
    else
      var owner := inputs.value[0].table;
      var kind := BranchKind(thenTerm, elseTerm);
      if (exists c :: c in inputs.value && (c.table != owner || c.derived)) || kind.None?
         || !BranchFits(kind.value, owner, thenTerm) || !BranchFits(kind.value, owner, elseTerm) then None
      else
        Some(Expr(CaseRoot(condition, inputs.value, BranchTerm(kind.value, thenTerm), BranchTerm(kind.value, elseTerm)),
                  [], kind.value, TermNullable(thenTerm) || TermNullable(elseTerm), owner))
  }

  // ----- everything that can be built -----

  /** The calls that build an expression. */
  datatype Build =
    | FromColumn(column: Column)
    | Composed(left: Build, operator: Arithmetic, right: Argument)
    | Lowered(text: Build)
    | Measured(text: Build)
    | Chosen(condition: Condition, thenArgument: Argument, elseArgument: Argument)

  datatype Argument = Constant(value: Value) | Built(build: Build)

  /** The calls that build a CASE condition; `OfQuery` is a comparison with a subquery, membership in one
      or EXISTS. */
  datatype Condition =
    | Compares(operand: Subject, operator: Comparison, value: Value)
    | TestsNull(operand: Subject, negated: bool)
    | Belongs(operand: Subject, values: seq<Value>, negated: bool)
    | Ranges(operand: Subject, low: Value, high: Value)
    | Resembles(operand: Subject, pattern: string, negated: bool)
    | ComparesWith(operand: Subject, operator: Comparison, other: Subject)
    | OfQuery(pred: Pred)
    | Joined(conjunction: bool, children: seq<Condition>)
    | Denied(child: Condition)

  datatype Subject = Stored(column: Column) | Aggregated(function_: string, argument: Option<Column>)
                   | Computes(build: Build) | Number(number: int)

  function Make(b: Build): Option<Expr>
    decreases b, 0
  {
    match b
    case FromColumn(c) => OfColumn(c)
    case Composed(left, op, right) =>
      var l, r := Make(left), MakeTerm(right);
      if l.None? || r.None? then None else Compose(l.value, op, r.value)
    case Lowered(text) => var e := Make(text); if e.None? then None else LowerOf(e.value)
    case Measured(text) => var e := Make(text); if e.None? then None else CharLengthOf(e.value)
    case Chosen(condition, a, b) =>
      var made, first, second := MakeCondition(condition), MakeTerm(a), MakeTerm(b);
      if made.None? || first.None? || second.None? then None else BuildCase(made.value, first.value, second.value)
  }

  function MakeSubject(subject: Subject): Option<Operand>
    decreases subject, 0
  {
    match subject
    case Stored(c) => Some(ColumnOperand(c))
    case Aggregated(name, argument) => Some(AggregateOperand(name, argument))
    case Computes(b) => var e := Make(b); if e.None? then None else Some(ExprOperand(e.value))
    case Number(n) => Some(LiteralOperand(n))
  }

  function MakeCondition(c: Condition): Option<Pred>
    decreases c, 0
  {
    match c
    case OfQuery(p) => if p.CompareScalar? || p.MemberQuery? || p.Exists? then Some(p) else None
    case Joined(conjunction, children) =>
      var made := MakeConditions(children);
      if made.None? then None else Some(Compound(conjunction, made.value))
    case Denied(child) => var made := MakeCondition(child); if made.None? then None else Some(Negated(made.value))
    case Compares(subject, op, value) =>
      var operand := MakeSubject(subject);
      if operand.None? then None else Some(Compare(operand.value, op, value))
    case TestsNull(subject, negated) =>
      var operand := MakeSubject(subject);
      if operand.None? then None else Some(NullTest(operand.value, negated))
    case Belongs(subject, values, negated) =>
      var operand := MakeSubject(subject);
      if operand.None? then None else Some(Member(operand.value, values, negated))
    case Ranges(subject, low, high) =>
      var operand := MakeSubject(subject);
      if operand.None? then None else Some(Between(operand.value, low, high))
    case Resembles(subject, pattern, negated) =>
      var operand := MakeSubject(subject);
      if operand.None? then None else Some(Like(operand.value, pattern, negated))
    case ComparesWith(subject, op, right) =>
      var operand, other := MakeSubject(subject), MakeSubject(right);
      if operand.None? || other.None? then None else Some(CompareOperand(operand.value, op, other.value))
  }

  function MakeConditions(cs: seq<Condition>): (r: Option<seq<Pred>>)
    ensures r.Some? ==> |r.value| == |cs|
    decreases cs, 0
  {
    if cs == [] then Some([])
    else
      var before, last := MakeConditions(cs[..|cs| - 1]), MakeCondition(cs[|cs| - 1]);
      if before.None? || last.None? then None else Some(before.value + [last.value])
  }

  function MakeTerm(a: Argument): Option<Term>
    decreases a, 0
  {
    match a
    case Constant(v) => Some(Literal(v))
    case Built(b) => var e := Make(b); if e.None? then None else Some(Nested(e.value))
  }

  // ----- reading back -----

  /** What the expression's own decoder accepts, returning it unchanged. */
  predicate Decodes(e: Expr, raw: Value) {
    if raw.Null? then e.nullable else OfKind(raw, e.kind)
  }

  function TermNullableWhenAbsent(term: Term): bool
    decreases term, 0
  {
    if term.Literal? then term.value.Null? else NullableWhenAbsent(term.expr)
  }

  function OperationNullable(left: bool, op: Operation): bool
    decreases op, 0
  {
    match op
    case Combine(operator, right) =>
      if operator.Coalesce? then left && TermNullableWhenAbsent(right) else left || TermNullableWhenAbsent(right)
    case _ => left
  }

  function OperationsNullable(root: bool, ops: seq<Operation>): bool
    decreases ops, 0
  {
    if ops == [] then root else OperationNullable(OperationsNullable(root, ops[..|ops| - 1]), ops[|ops| - 1])
  }

  function RootNullable(root: Root): bool
    decreases root, 0
  {
    match root
    case ColumnRoot(_) => true
    case CaseRoot(_, _, thenTerm, elseTerm) => TermNullableWhenAbsent(thenTerm) || TermNullableWhenAbsent(elseTerm)
  }

  /** Whether the value may be NULL when its source row is absent from a LEFT join. */
  function NullableWhenAbsent(e: Expr): bool
    decreases e, 0
  {
    OperationsNullable(RootNullable(e.root), e.operations)
  }

  /** Decoding on the nullable side of a LEFT join. */
  predicate DecodesWhenExtended(e: Expr, raw: Value) {
    (raw.Null? && NullableWhenAbsent(e)) || Decodes(e, raw)
  }

  ghost predicate Conforms(row: RowValues) {
    forall c: Column :: if row(c).Null? then c.nullable else Native(c.kind) ==> OfKind(row(c), c.kind)
  }

  function Absent(): RowValues {
    (c: Column) => Null
  }

  lemma BranchKindCovers(a: Term, b: Term)
    requires BranchKind(a, b).Some?
    ensures
      var kind := BranchKind(a, b).value;
      && (a.Nested? ==> a.expr.kind == kind) && (b.Nested? ==> b.expr.kind == kind)
      && Native(kind)
  {
    var kinds := TermKinds(a) + TermKinds(b);
    assert a.Nested? ==> a.expr.kind in kinds;
    assert b.Nested? ==> b.expr.kind in kinds;
  }

  lemma {:induction false} OneMore(s: Engine, row: RowValues, e: Expr, op: Operation, e': Expr)
    requires e'.root == e.root && e'.operations == e.operations + [op]
    ensures ExprValue(s, row, e') == OperationValue(s, row, ExprValue(s, row, e), op)
    ensures NullableWhenAbsent(e') == OperationNullable(NullableWhenAbsent(e), op)
  {
    assert (e.operations + [op])[..|e.operations|] == e.operations;
  }

  /** A literal the builder accepted has the expression's kind after widening, or is NULL; unwidened it
      is at least numeric. */
  lemma EncodedKind(kind: Kind, v: Value)
    requires Encodes(kind, v) && !v.Null?
    ensures OfKind(Widened(kind, v), kind)
    ensures kind.IntKind? ==> v.Int?
  {
  }

  lemma {:induction false} BranchValue(s: Engine, row: RowValues, kind: Kind, owner: string, term: Term)
    requires BranchFits(kind, owner, term)
    ensures term.Nested? ==> TermValue(s, row, BranchTerm(kind, term)) == ExprValue(s, row, term.expr)
    ensures term.Literal? ==>
      var v := TermValue(s, row, BranchTerm(kind, term));
      (v.Null? <==> term.value.Null?) && (!v.Null? ==> OfKind(v, kind))
    ensures TermNullableWhenAbsent(BranchTerm(kind, term)) == TermNullableWhenAbsent(term)
  {
    if term.Literal? && !term.value.Null? {
      EncodedKind(kind, term.value);
    }
  }

  /** A CASE is one of its branches. */
  lemma {:induction false} CaseValue(s: Engine, row: RowValues, condition: Pred, a: Term, b: Term)
    requires BuildCase(condition, a, b).Some?
    ensures
      var e, kind := BuildCase(condition, a, b).value, BranchKind(a, b).value;
      && e.kind == kind
      && ExprValue(s, row, e)
         == (if Truth(s, row, condition) == True then TermValue(s, row, BranchTerm(kind, a))
             else TermValue(s, row, BranchTerm(kind, b)))
      && NullableWhenAbsent(e)
         == (TermNullableWhenAbsent(BranchTerm(kind, a)) || TermNullableWhenAbsent(BranchTerm(kind, b)))
  {
  }

  /** Type and NULL soundness on present rows: whatever the row holds within its columns' declarations,
      the value a built expression evaluates to is one its decoder returns unchanged. */
  lemma {:induction false} BuiltValuesDecode(s: Engine, row: RowValues, b: Build)
    requires Conforms(row) && Make(b).Some?
    ensures Native(Make(b).value.kind)
    ensures Decodes(Make(b).value, ExprValue(s, row, Make(b).value))
    decreases b
  {
    var e := Make(b).value;
    match b
    case FromColumn(c) =>
      assert ExprValue(s, row, e) == row(c);
    case Composed(left, op, right) =>
      BuiltValuesDecode(s, row, left);
      if right.Built? {
        BuiltValuesDecode(s, row, right.build);
      }
      OneMore(s, row, Make(left).value, e.operations[|e.operations| - 1], e);
    case Lowered(text) =>
      BuiltValuesDecode(s, row, text);
      OneMore(s, row, Make(text).value, Lower, e);
    case Measured(text) =>
      BuiltValuesDecode(s, row, text);
      OneMore(s, row, Make(text).value, CharLength, e);
    case Chosen(condition, a, b') =>
      var first, second := MakeTerm(a).value, MakeTerm(b').value;
      BranchKindCovers(first, second);
      CaseValue(s, row, MakeCondition(condition).value, first, second);
      BranchValue(s, row, e.kind, e.owner, first);
      BranchValue(s, row, e.kind, e.owner, second);
      if a.Built? {
        BuiltValuesDecode(s, row, a.build);
      }
      if b'.Built? {
        BuiltValuesDecode(s, row, b'.build);
      }
  }

  /** The same on a row absent from a LEFT join: NULL comes out only where it was announced. */
  lemma {:induction false} AbsentValuesDecode(s: Engine, b: Build)
    requires Make(b).Some?
    ensures Native(Make(b).value.kind)
    ensures
      var e, raw := Make(b).value, ExprValue(s, Absent(), Make(b).value);
      DecodesWhenExtended(e, raw) && if raw.Null? then NullableWhenAbsent(e) else OfKind(raw, e.kind)
    decreases b
  {
    var e := Make(b).value;
    match b
    case FromColumn(c) =>
    case Composed(left, op, right) =>
      AbsentValuesDecode(s, left);
      if right.Built? {
        AbsentValuesDecode(s, right.build);
      }
      OneMore(s, Absent(), Make(left).value, e.operations[|e.operations| - 1], e);
    case Lowered(text) =>
      AbsentValuesDecode(s, text);
      OneMore(s, Absent(), Make(text).value, Lower, e);
    case Measured(text) =>
      AbsentValuesDecode(s, text);
      OneMore(s, Absent(), Make(text).value, CharLength, e);
    case Chosen(condition, a, b') =>
      var first, second := MakeTerm(a).value, MakeTerm(b').value;
      BranchKindCovers(first, second);
      CaseValue(s, Absent(), MakeCondition(condition).value, first, second);
      BranchValue(s, Absent(), e.kind, e.owner, first);
      BranchValue(s, Absent(), e.kind, e.owner, second);
      if a.Built? {
        AbsentValuesDecode(s, a.build);
      }
      if b'.Built? {
        AbsentValuesDecode(s, b'.build);
      }
  }

  predicate CaseFree(b: Build)
    decreases b, 0
  {
    match b
    case FromColumn(_) => true
    case Composed(left, _, right) => CaseFree(left) && (right.Built? ==> CaseFree(right.build))
    case Lowered(text) => CaseFree(text)
    case Measured(text) => CaseFree(text)
    case Chosen(_, _, _) => false
  }

  /** Without CASE the announcement is exact: NULL on an absent row if and only if announced. */
  lemma {:induction false} AbsentNullExactly(s: Engine, b: Build)
    requires Make(b).Some? && CaseFree(b)
    ensures ExprValue(s, Absent(), Make(b).value).Null? <==> NullableWhenAbsent(Make(b).value)
    decreases b
  {
    var e := Make(b).value;
    match b
    case FromColumn(c) =>
    case Composed(left, op, right) =>
      AbsentNullExactly(s, left);
      if right.Built? {
        AbsentNullExactly(s, right.build);
      }
      OneMore(s, Absent(), Make(left).value, e.operations[|e.operations| - 1], e);
    case Lowered(text) =>
      AbsentNullExactly(s, text);
      AbsentValuesDecode(s, text);
      OneMore(s, Absent(), Make(text).value, Lower, e);
    case Measured(text) =>
      AbsentNullExactly(s, text);
      AbsentValuesDecode(s, text);
      OneMore(s, Absent(), Make(text).value, CharLength, e);
  }

  /** With CASE it may announce more: this one is never NULL on an absent row. */
  lemma CaseAnnouncesMore(s: Engine) returns (b: Build)
    ensures Make(b).Some? && NullableWhenAbsent(Make(b).value)
    ensures !ExprValue(s, Absent(), Make(b).value).Null?
  {
    var c := Column("t", "x", IntKind, true, false, false);
    var isNull := NullTest(ColumnOperand(c), false);
    b := Chosen(TestsNull(Stored(c), false), Constant(Int(1)), Constant(Null));
    assert BranchKind(Literal(Int(1)), Literal(Null)) == Some(IntKind) by {
      assert TermKinds(Literal(Int(1))) + TermKinds(Literal(Null)) == {IntKind};
    }
    CaseValue(s, Absent(), isNull, Literal(Int(1)), Literal(Null));
  }

  // ----- the folds as loops -----

  method CollectReferenced(e: Expr) returns (columns: seq<Column>)
    ensures columns == ReferencedColumns(e)
    decreases e, 0
  {
    match e.root {
      case ColumnRoot(c) => columns := [c];
      case CaseRoot(_, inputs, thenTerm, elseTerm) =>
        var first := CollectTerm(thenTerm);
        var second := CollectTerm(elseTerm);
        columns := inputs + first + second;
    }
    ghost var base := columns;
    assert base + [] == base && e.operations[..0] == [];
    for i := 0 to |e.operations|
      invariant columns == base + OperationsColumns(e.operations[..i])
    {
      assert e.operations[..i + 1][..i] == e.operations[..i];
      var more := CollectOperation(e.operations[i]);
      assert columns + more == base + (OperationsColumns(e.operations[..i]) + more);
      columns := columns + more;
    }
    assert e.operations[..|e.operations|] == e.operations;
  }

  method CollectTerm(term: Term) returns (columns: seq<Column>)
    ensures columns == TermColumns(term)
    decreases term, 0
  {
    if term.Literal? {
      return [];
    }
    columns := CollectReferenced(term.expr);
  }

  method CollectOperation(op: Operation) returns (columns: seq<Column>)
    ensures columns == OperationColumns(op)
    decreases op, 0
  {
    if !op.Combine? {
      return [];
    }
    columns := CollectTerm(op.right);
  }

  method FoldNullable(e: Expr) returns (nullable: bool)
    ensures nullable == NullableWhenAbsent(e)
    decreases e, 0
  {
    nullable := true;
    if e.root.CaseRoot? {
      var first := FoldTerm(e.root.thenTerm);
      var second := FoldTerm(e.root.elseTerm);
      nullable := first || second;
    }
    ghost var root := nullable;
    assert e.operations[..0] == [];
    for i := 0 to |e.operations|
      invariant nullable == OperationsNullable(root, e.operations[..i])
    {
      assert e.operations[..i + 1][..i] == e.operations[..i];
      nullable := FoldOperation(nullable, e.operations[i]);
    }
    assert e.operations[..|e.operations|] == e.operations;
  }

  method FoldTerm(term: Term) returns (nullable: bool)
    ensures nullable == TermNullableWhenAbsent(term)
    decreases term, 0
  {
    if term.Literal? {
      return term.value.Null?;
    }
    nullable := FoldNullable(term.expr);
  }

  method FoldOperation(left: bool, op: Operation) returns (nullable: bool)
    ensures nullable == OperationNullable(left, op)
    decreases op, 0
  {
    if !op.Combine? {
      return left;
    }
    var right := FoldTerm(op.right);
    nullable := if op.operator.Coalesce? then left && right else left || right;
  }

  method CollectInputs(p: Pred) returns (columns: Option<seq<Column>>)
    ensures columns == ConditionInputs(p)
    decreases p, 0
  {
    match p
    case CompareScalar(_, _, _) => columns := None;
    case MemberQuery(_, _, _) => columns := None;
    case Exists(_, _) => columns := None;
    case CompareOperand(operand, _, other) =>
      var first := CollectOperand(operand);
      var second := CollectOperand(other);
      columns := Joint(first, second);
    case Negated(child) => columns := CollectInputs(child);
    case Compound(_, children) =>
      columns := Some([]);
      for i := 0 to |children|
        invariant columns == AllInputs(children[..i])
      {
        assert children[..i + 1][..i] == children[..i];
        var more := CollectInputs(children[i]);
        columns := Joint(columns, more);
      }
      assert children[..|children|] == children;
    case _ => columns := CollectOperand(p.operand);
  }

  method CollectOperand(operand: Operand) returns (columns: Option<seq<Column>>)
    ensures columns == OperandInputs(operand)
  {
    match operand
    case ColumnOperand(c) => columns := if c.derived then None else Some([c]);
    case AggregateOperand(_, _) => columns := None;
    case LiteralOperand(_) => columns := None;
    case ExprOperand(e) =>
      var referenced := CollectReferenced(e);
      columns := Some(referenced);
  }
}
