/** The SET clause of an accepted UPDATE means the same whether its values are computed from the row as
    it was or from the row as it is being changed. */
module SetOrder {
  import opened TextCodec
  import opened QueryAst
  import opened Expressions

  // ----- expressions as the builders leave them -----

  /** Every CASE carries the columns its condition reads. */
  predicate Honest(e: Expr)
    decreases e, 0
  {
    && (e.root.CaseRoot? ==>
          && ConditionInputs(e.root.condition) == Some(e.root.columns)
          && HonestPred(e.root.condition)
          && HonestTerm(e.root.thenTerm) && HonestTerm(e.root.elseTerm))
    && (forall i :: 0 <= i < |e.operations| ==> HonestOperation(e.operations[i]))
  }

  predicate HonestTerm(term: Term)
    decreases term, 0
  {
    term.Nested? ==> Honest(term.expr)
  }

  predicate HonestOperation(op: Operation)
    decreases op, 0
  {
    op.Combine? ==> HonestTerm(op.right)
  }

  predicate HonestOperand(operand: Operand)
    decreases operand, 0
  {
    operand.ExprOperand? ==> Honest(operand.expr)
  }

  predicate HonestPred(p: Pred)
    decreases p, 0
  {
    match p
    case CompareScalar(_, _, _) => true
    case MemberQuery(_, _, _) => true
    case Exists(_, _) => true
    case CompareOperand(operand, _, other) => HonestOperand(operand) && HonestOperand(other)
    case Compound(_, children) => forall i :: 0 <= i < |children| ==> HonestPred(children[i])
    case Negated(child) => HonestPred(child)
    case _ => HonestOperand(p.operand)
  }

  /** Whatever is built, through conditions, branches and operands. */
  lemma {:induction false} BuiltIsHonest(b: Build)
    requires Make(b).Some?
    ensures Honest(Make(b).value)
    decreases b, 1
  {
    match b
    case FromColumn(_) =>
    case Composed(left, op, right) =>
      BuiltIsHonest(left);
      ArgumentIsHonest(right);
    case Lowered(text) => BuiltIsHonest(text);
    case Measured(text) => BuiltIsHonest(text);
    case Chosen(condition, a, b') =>
      ConditionIsHonest(condition);
      ArgumentIsHonest(a);
      ArgumentIsHonest(b');
  }

  lemma {:induction false} ArgumentIsHonest(a: Argument)
    requires MakeTerm(a).Some?
    ensures HonestTerm(MakeTerm(a).value)
    decreases a, 0
  {
    if a.Built? {
      BuiltIsHonest(a.build);
    }
  }

  lemma {:induction false} SubjectIsHonest(subject: Subject)
    requires MakeSubject(subject).Some?
    ensures HonestOperand(MakeSubject(subject).value)
    decreases subject, 0
  {
    if subject.Computes? {
      BuiltIsHonest(subject.build);
    }
  }

  lemma {:induction false} ConditionIsHonest(c: Condition)
    requires MakeCondition(c).Some?
    ensures HonestPred(MakeCondition(c).value)
    decreases c, 1
  {
    match c
    case OfQuery(_) =>
    case Joined(_, children) => ConditionsAreHonest(children);
    case Denied(child) => ConditionIsHonest(child);
    case ComparesWith(operand, _, other) =>
      SubjectIsHonest(operand);
      SubjectIsHonest(other);
    case _ => SubjectIsHonest(c.operand);
  }

  lemma {:induction false} ConditionsAreHonest(cs: seq<Condition>)
    requires MakeConditions(cs).Some?
    ensures forall i :: 0 <= i < |cs| ==> HonestPred(MakeConditions(cs).value[i])
    decreases cs, 0
  {
    if cs != [] {
      ConditionsAreHonest(cs[..|cs| - 1]);
      ConditionIsHonest(cs[|cs| - 1]);
    }
  }

  // ----- an expression reads only its referenced columns -----

  ghost predicate Agree(row: RowValues, row': RowValues, columns: seq<Column>) {
    forall c :: c in columns ==> row(c) == row'(c)
  }

  lemma {:induction false} ExprFrame(s: Engine, row: RowValues, row': RowValues, e: Expr)
    requires Honest(e) && Agree(row, row', ReferencedColumns(e))
    ensures ExprValue(s, row, e) == ExprValue(s, row', e)
    decreases e, 1
  {
    RootFrame(s, row, row', e);
    OperationsFrame(s, row, row', RootValue(s, row, e.root), e.operations);
  }

  lemma {:induction false} RootFrame(s: Engine, row: RowValues, row': RowValues, e: Expr)
    requires Honest(e) && Agree(row, row', ReferencedColumns(e))
    ensures RootValue(s, row, e.root) == RootValue(s, row', e.root)
    ensures Agree(row, row', OperationsColumns(e.operations))
    decreases e, 0
  {
    if e.root.CaseRoot? {
      PredFrame(s, row, row', e.root.condition);
      TermFrame(s, row, row', e.root.thenTerm);
      TermFrame(s, row, row', e.root.elseTerm);
    }
  }

  lemma {:induction false} TermFrame(s: Engine, row: RowValues, row': RowValues, term: Term)
    requires HonestTerm(term) && Agree(row, row', TermColumns(term))
    ensures TermValue(s, row, term) == TermValue(s, row', term)
    decreases term, 0
  {
    if term.Nested? {
      ExprFrame(s, row, row', term.expr);
    }
  }

  lemma {:induction false} OperationsFrame(s: Engine, row: RowValues, row': RowValues, root: Value, ops: seq<Operation>)
    requires (forall i :: 0 <= i < |ops| ==> HonestOperation(ops[i])) && Agree(row, row', OperationsColumns(ops))
    ensures OperationsValue(s, row, root, ops) == OperationsValue(s, row', root, ops)
    decreases ops, 0
  {
    if ops != [] {
      var last := ops[|ops| - 1];
      OperationsFrame(s, row, row', root, ops[..|ops| - 1]);
      if last.Combine? {
        OperationFrame(s, row, row', last);
      }
    }
  }

  lemma {:induction false} OperationFrame(s: Engine, row: RowValues, row': RowValues, op: Operation)
    requires op.Combine? && HonestOperation(op) && Agree(row, row', OperationColumns(op))
    ensures TermValue(s, row, op.right) == TermValue(s, row', op.right)
    decreases op, 0
  {
    TermFrame(s, row, row', op.right);
  }

  lemma {:induction false} OperandFrame(s: Engine, row: RowValues, row': RowValues, operand: Operand)
    requires HonestOperand(operand) && OperandInputs(operand).Some? && Agree(row, row', OperandInputs(operand).value)
    ensures OperandValue(s, row, operand) == OperandValue(s, row', operand)
    decreases operand, 0
  {
    if operand.ExprOperand? {
      ExprFrame(s, row, row', operand.expr);
    }
  }

  lemma {:induction false} PredFrame(s: Engine, row: RowValues, row': RowValues, p: Pred)
    requires HonestPred(p) && ConditionInputs(p).Some? && Agree(row, row', ConditionInputs(p).value)
    ensures Truth(s, row, p) == Truth(s, row', p)
    decreases p, 1
  {
    match p
    case CompareOperand(operand, _, other) =>
      OperandFrame(s, row, row', operand);
      OperandFrame(s, row, row', other);
    case Compound(_, children) =>
      if |children| == 2 {
        PairInputs(children);
        PredFrame(s, row, row', children[0]);
        PredFrame(s, row, row', children[1]);
      }
    case Negated(child) => PredFrame(s, row, row', child);
    case Compare(operand, _, _) => OperandFrame(s, row, row', operand);
    case NullTest(operand, _) => OperandFrame(s, row, row', operand);
    case Member(operand, _, _) => OperandFrame(s, row, row', operand);
    case Between(operand, _, _) => OperandFrame(s, row, row', operand);
    case Like(operand, _, _) => OperandFrame(s, row, row', operand);
    case _ =>
  }

  lemma {:induction false} PairInputs(ps: seq<Pred>)
    requires |ps| == 2 && AllInputs(ps).Some?
    ensures ConditionInputs(ps[0]).Some? && ConditionInputs(ps[1]).Some?
    ensures AllInputs(ps).value == ConditionInputs(ps[0]).value + ConditionInputs(ps[1]).value
  {
    assert ps[..1] == [ps[0]] && ps[..1][..0] == [];
    assert AllInputs(ps[..1]) == Joint(AllInputs([]), ConditionInputs(ps[0]));
    assert [] + ConditionInputs(ps[0]).value == ConditionInputs(ps[0]).value;
  }

  // ----- SET -----

  /** What an UPDATE sets, apart from computed values: the encoded literals and the statement's time. */
  datatype Clock = Clock(engine: Engine, now: Column -> Value, encode: (Column, Value) -> Value)

  function AssignedValue(k: Clock, row: RowValues, a: Assignment): Value {
    match a.source
    case Computed(e) => ExprValue(k.engine, row, e)
    case CurrentTimestamp => k.now(a.column)
    case Plain(v) => k.encode(a.column, v)
    case InsertedValue => Null
  }

  /** Every value computed from the row before the statement; the last assignment of a column counts. */
  function Simultaneous(k: Clock, row: RowValues, assignments: seq<Assignment>, c: Column): Value {
    if assignments == [] then row(c)
    else
      var last := assignments[|assignments| - 1];
      if last.column == c then AssignedValue(k, row, last)
      else Simultaneous(k, row, assignments[..|assignments| - 1], c)
  }

  /** Assignments performed one after another, each seeing the ones before it. */
  function Sequential(k: Clock, row: RowValues, assignments: seq<Assignment>): RowValues {
    if assignments == [] then row
    else
      var before := Sequential(k, row, assignments[..|assignments| - 1]);
      var last := assignments[|assignments| - 1];
      (c: Column) => if c == last.column then AssignedValue(k, before, last) else before(c)
  }

  /** Objects with one identity are one assignment. */
  predicate Identified(assignments: seq<Assignment>) {
    forall i, j :: 0 <= i < j < |assignments| && assignments[i].id == assignments[j].id ==>
      assignments[i] == assignments[j]
  }

  predicate ReadsItself(a: Assignment) {
    a.source.Computed? && a.column in ReferencedColumns(a.source.expr)
  }

  /** No assignment object that reads the column it writes is listed twice. */
  predicate NoRepeatedSelfRead(assignments: seq<Assignment>) {
    forall i, j :: 0 <= i < j < |assignments| && assignments[i].id == assignments[j].id ==>
      !ReadsItself(assignments[i])
  }

  predicate AllHonest(assignments: seq<Assignment>) {
    forall i :: 0 <= i < |assignments| && assignments[i].source.Computed? ==> Honest(assignments[i].source.expr)
  }

  /** Every computed value was built. */
  ghost predicate AllBuilt(assignments: seq<Assignment>) {
    forall i :: 0 <= i < |assignments| && assignments[i].source.Computed? ==>
      exists b :: Make(b) == Some(assignments[i].source.expr)
  }

  lemma BuiltAreHonest(assignments: seq<Assignment>)
    requires AllBuilt(assignments)
    ensures AllHonest(assignments)
  {
    forall i | 0 <= i < |assignments| && assignments[i].source.Computed?
      ensures Honest(assignments[i].source.expr)
    {
      var b :| Make(b) == Some(assignments[i].source.expr);
      BuiltIsHonest(b);
    }
  }

  /** No assignment before position `n` writes a column that assignment `n` reads. */
  lemma NothingReadWasWritten(assignments: seq<Assignment>, n: nat, j: nat)
    requires j < n < |assignments| && assignments[n].source.Computed?
    requires Independent(assignments) && Identified(assignments) && NoRepeatedSelfRead(assignments)
    ensures assignments[j].column !in ReferencedColumns(assignments[n].source.expr)
  {
    assert !ReadsAnother(assignments, assignments[n]);
  }

  lemma {:induction false} UnwrittenStays(k: Clock, row: RowValues, assignments: seq<Assignment>, c: Column)
    requires forall j :: 0 <= j < |assignments| ==> assignments[j].column != c
    ensures Sequential(k, row, assignments)(c) == row(c)
  {
    if assignments != [] {
      UnwrittenStays(k, row, assignments[..|assignments| - 1], c);
    }
  }

  lemma {:induction false} ReadStays(k: Clock, row: RowValues, assignments: seq<Assignment>, n: nat, c: Column)
    requires n < |assignments| && assignments[n].source.Computed?
    requires c in ReferencedColumns(assignments[n].source.expr)
    requires Independent(assignments) && Identified(assignments) && NoRepeatedSelfRead(assignments)
    ensures Sequential(k, row, assignments[..n])(c) == row(c)
  {
    var before := assignments[..n];
    forall j | 0 <= j < |before| ensures before[j].column != c {
      NothingReadWasWritten(assignments, n, j);
    }
    UnwrittenStays(k, row, before, c);
  }

  lemma {:induction false} PrefixOrder(k: Clock, row: RowValues, assignments: seq<Assignment>, n: nat, c: Column)
    requires n <= |assignments| && AllHonest(assignments)
    requires Independent(assignments) && Identified(assignments) && NoRepeatedSelfRead(assignments)
    ensures Sequential(k, row, assignments[..n])(c) == Simultaneous(k, row, assignments[..n], c)
    decreases n
  {
    if n > 0 {
      var last := assignments[n - 1];
      var before := Sequential(k, row, assignments[..n - 1]);
      assert assignments[..n][..n - 1] == assignments[..n - 1];
      PrefixOrder(k, row, assignments, n - 1, c);
      if last.source.Computed? {
        forall r | r in ReferencedColumns(last.source.expr) ensures row(r) == before(r) {
          ReadStays(k, row, assignments, n - 1, r);
        }
        ExprFrame(k.engine, row, before, last.source.expr);
      }
    }
  }

  /** An UPDATE that passes the dependency check, with no self-reading object listed twice, gives every
      row the same contents under both orders of evaluation. Distinct objects always qualify. */
  lemma {:induction false} AcceptedOrderIrrelevant(k: Clock, row: RowValues, assignments: seq<Assignment>, c: Column)
    requires AllBuilt(assignments) && Independent(assignments) && Identified(assignments)
    requires NoRepeatedSelfRead(assignments)
    ensures Sequential(k, row, assignments)(c) == Simultaneous(k, row, assignments, c)
  {
    BuiltAreHonest(assignments);
    PrefixOrder(k, row, assignments, |assignments|, c);
    assert assignments[..|assignments|] == assignments;
  }

  lemma DistinctObjectsQualify(assignments: seq<Assignment>)
    requires forall i, j :: 0 <= i < j < |assignments| ==> assignments[i].id != assignments[j].id
    ensures Identified(assignments) && NoRepeatedSelfRead(assignments)
  {
  }

  /** The check compares objects, so one object listed twice passes it; incrementing a column that way
      counts once under simultaneous evaluation and twice under sequential evaluation. */
  lemma RepeatedObjectDiffers(k: Clock) returns (assignments: seq<Assignment>, c: Column, row: RowValues)
    ensures Independent(assignments) && Identified(assignments) && AllBuilt(assignments)
    ensures Sequential(k, row, assignments)(c) != Simultaneous(k, row, assignments, c)
  {
    c := Column("t", "x", IntKind, false, false, false);
    var e := Expr(ColumnRoot(c), [Combine(Plus, Literal(Int(1)))], IntKind, false, "t");
    var a := Assignment(0, c, Computed(e));
    assignments := [a, a];
    row := (column: Column) => Int(0);
    IncrementIsBuilt(c, e);
    Increments(k.engine, row, e, c);
    var once := Sequential(k, row, [a]);
    assert [a][..0] == [] && [a, a][..1] == [a];
    assert Sequential(k, row, [a][..0]) == row;
    assert once(c) == AssignedValue(k, row, a) == Int(1);
    assert Sequential(k, row, assignments[..1]) == once;
    Increments(k.engine, once, e, c);
    assert Sequential(k, row, assignments)(c) == AssignedValue(k, once, a);
  }

  lemma IncrementIsBuilt(c: Column, e: Expr)
    requires c.kind.IntKind? && !c.nullable
    requires e == Expr(ColumnRoot(c), [Combine(Plus, Literal(Int(1)))], IntKind, false, c.table)
    ensures exists b :: Make(b) == Some(e)
  {
    var left := OfColumn(c).value;
    assert [] + [Combine(Plus, Literal(Int(1)))] == [Combine(Plus, Literal(Int(1)))];
    assert Compose(left, Plus, Literal(Int(1))) == Some(e);
    assert Make(FromColumn(c)) == Some(left);
    assert Make(Composed(FromColumn(c), Plus, Constant(Int(1)))) == Some(e);
  }

  lemma {:induction false} Increments(s: Engine, row: RowValues, e: Expr, c: Column)
    requires e.root == ColumnRoot(c) && e.operations == [Combine(Plus, Literal(Int(1)))] && row(c).Int?
    ensures ExprValue(s, row, e) == Int(row(c).number + 1)
  {
    assert e.operations[..0] == [];
    assert OperationsValue(s, row, row(c), e.operations[..0]) == row(c);
    assert ExprValue(s, row, e) == OperationValue(s, row, row(c), e.operations[0]);
  }
}
