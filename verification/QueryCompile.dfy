/** Compilation to SQL with placeholders and a flat parameter tuple, each proved to be the template
    with its bound values taken out from left to right. */
module QueryCompile {
  import opened TextCodec
  import opened QueryAst
  import opened QueryTemplate
  import Expressions

  datatype Frag = Sql(text: string) | Hole

  datatype Code = Code(sql: seq<Frag>, params: seq<Value>)

  /** The template's text, with a placeholder for each bound value. */
  function Erase(t: Template): seq<Frag> {
    seq(|t|, i requires 0 <= i < |t| => if t[i].Bind? then Hole else Sql(t[i].text))
  }

  /** The template's bound values, left to right. */
  function Binds(t: Template): seq<Value> {
    if t == [] then []
    else Binds(t[..|t| - 1]) + if t[|t| - 1].Bind? then [t[|t| - 1].value] else []
  }

  function Emit(t: Option<Template>): Option<Code> {
    if t.None? then None else Some(Code(Erase(t.value), Binds(t.value)))
  }

  /** The statement a driver executes: the placeholders taken from left to right, each given the next
      parameter, with none left over. */
  function Filled(sql: seq<Frag>, params: seq<Value>): Option<Template>
    decreases |sql|
  {
    if sql == [] then if params == [] then Some([]) else None
    else if sql[0].Sql? then
      match Filled(sql[1..], params)
      case None => None
      case Some(t) => Some([Text(sql[0].text)] + t)
    else if params == [] then None
    else
      match Filled(sql[1..], params[1..])
      case None => None
      case Some(t) => Some([Bind(params[0])] + t)
  }

  /** Executing the emitted pair puts every value back where the template has it. */
  lemma {:induction false} EmittedFillsBack(t: Template)
    ensures Filled(Erase(t), Binds(t)) == Some(t)
  {
    if t != [] {
      EmittedFillsBack(t[1..]);
      assert t == [t[0]] + t[1..];
      EraseConcat([t[0]], t[1..]);
      BindsConcat([t[0]], t[1..]);
      assert Binds([t[0]]) == if t[0].Bind? then [t[0].value] else [];
      assert Erase(t)[1..] == Erase(t[1..]);
      if t[0].Bind? {
        assert Binds(t)[1..] == Binds(t[1..]);
      } else {
        assert Binds(t) == Binds(t[1..]);
      }
    }
  }

  // ----- templates taken apart -----

  lemma EraseConcat(a: Template, b: Template)
    ensures Erase(a + b) == Erase(a) + Erase(b)
  {
  }

  lemma {:induction false} BindsConcat(a: Template, b: Template)
    ensures Binds(a + b) == Binds(a) + Binds(b)
  {
    if b == [] {
      assert a + b == a;
    } else {
      assert (a + b)[..|a + b| - 1] == a + b[..|b| - 1];
      BindsConcat(a, b[..|b| - 1]);
    }
  }

  lemma Singles()
    ensures forall s :: Erase(Written(s)) == [Sql(s)] && Binds(Written(s)) == []
    ensures forall v :: Erase(Bound(v)) == [Hole] && Binds(Bound(v)) == [v]
  {
  }

  function Wrapped(before: string, code: Option<Code>, after: string): Option<Code> {
    if code.None? then None
    else Some(Code([Sql(before)] + code.value.sql + [Sql(after)], code.value.params))
  }

  function Linked(a: Option<Code>, between: string, b: Option<Code>): Option<Code> {
    if a.None? || b.None? then None
    else Some(Code(a.value.sql + [Sql(between)] + b.value.sql, a.value.params + b.value.params))
  }

  lemma EnclosedEmit(before: string, t: Option<Template>, after: string)
    ensures Emit(Enclosed(before, t, after)) == Wrapped(before, Emit(t), after)
  {
    Singles();
    if t.Some? {
      Concat3(Written(before), t.value, Written(after));
      assert [] + Binds(t.value) + [] == Binds(t.value);
    }
  }

  lemma {:induction false} Concat3(a: Template, b: Template, c: Template)
    ensures Erase(a + b + c) == Erase(a) + Erase(b) + Erase(c)
    ensures Binds(a + b + c) == Binds(a) + Binds(b) + Binds(c)
  {
    EraseConcat(a + b, c);
    BindsConcat(a + b, c);
    EraseConcat(a, b);
    BindsConcat(a, b);
  }

  lemma BetweenEmit(a: Option<Template>, between: string, b: Option<Template>)
    ensures Emit(Between3(a, between, b)) == Linked(Emit(a), between, Emit(b))
  {
    Singles();
    if a.Some? && b.Some? {
      Concat3(a.value, Written(between), b.value);
      assert Binds(a.value) + [] + Binds(b.value) == Binds(a.value) + Binds(b.value);
    }
  }

  lemma WrittenEmit(s: string)
    ensures Emit(Some(Written(s))) == Some(Code([Sql(s)], []))
  {
    Singles();
  }

  lemma BoundEmit(v: Value)
    ensures Emit(Some(Bound(v))) == Some(Code([Hole], [v]))
  {
    Singles();
  }

  // ----- lists of templates -----

  datatype Parts = Parts(sql: seq<seq<Frag>>, params: seq<Value>)

  function JoinedSql(parts: seq<seq<Frag>>, separator: string): seq<Frag> {
    if parts == [] then []
    else if |parts| == 1 then parts[0]
    else JoinedSql(parts[..|parts| - 1], separator) + [Sql(separator)] + parts[|parts| - 1]
  }

  /** The parts and the parameters gathered so far, as a list compiler keeps them. */
  function Gathered(items: seq<Option<Template>>): Option<Parts> {
    if items == [] then Some(Parts([], []))
    else
      var before, last := Gathered(items[..|items| - 1]), Emit(items[|items| - 1]);
      if before.None? || last.None? then None
      else Some(Parts(before.value.sql + [last.value.sql], before.value.params + last.value.params))
  }

  function Both(a: Option<Parts>, b: Option<Parts>): Option<Parts> {
    if a.None? || b.None? then None else Some(Parts(a.value.sql + b.value.sql, a.value.params + b.value.params))
  }

  lemma {:induction false} GatheredConcat(a: seq<Option<Template>>, b: seq<Option<Template>>)
    ensures Gathered(a + b) == Both(Gathered(a), Gathered(b))
  {
    if b == [] {
      assert a + b == a;
      if Gathered(a).Some? {
        assert Gathered(a).value.sql + [] == Gathered(a).value.sql;
        assert Gathered(a).value.params + [] == Gathered(a).value.params;
      }
    } else {
      var rest, last := b[..|b| - 1], b[|b| - 1];
      assert (a + b)[..|a + b| - 1] == a + rest;
      GatheredConcat(a, rest);
      if Gathered(a).Some? && Gathered(rest).Some? && last.Some? {
        var x, y, z := Gathered(a).value, Gathered(rest).value, Emit(last).value;
        assert x.sql + y.sql + [z.sql] == x.sql + (y.sql + [z.sql]);
        assert x.params + y.params + z.params == x.params + (y.params + z.params);
      }
    }
  }

  lemma {:induction false} GatherFails(items: seq<Option<Template>>, i: nat)
    requires i < |items| && items[i].None?
    ensures Gathered(items) == None
  {
    if i < |items| - 1 {
      GatherFails(items[..|items| - 1], i);
    }
  }

  lemma {:induction false} GatherNext(items: seq<Option<Template>>, i: nat)
    requires i < |items|
    ensures items[i].None? ==> Gathered(items) == None
    ensures items[i].Some? && Gathered(items[..i]).Some? ==>
      var before, code := Gathered(items[..i]).value, Emit(items[i]).value;
      Gathered(items[..i + 1]) == Some(Parts(before.sql + [code.sql], before.params + code.params))
  {
    if items[i].None? {
      GatherFails(items, i);
    }
    assert items[..i + 1][..i] == items[..i];
  }

  function JoinedCode(parts: Option<Parts>, separator: string): Option<Code> {
    if parts.None? then None else Some(Code(JoinedSql(parts.value.sql, separator), parts.value.params))
  }

  lemma {:induction false} JoinedEmit(items: seq<Option<Template>>, separator: string)
    ensures Emit(JoinedAll(items, separator)) == JoinedCode(Gathered(items), separator)
    ensures All(items).None? <==> Gathered(items).None?
    ensures All(items).Some? ==> |All(items).value| == |Gathered(items).value.sql| == |items|
  {
    if items == [] {
      assert Erase([]) == [];
    } else {
      var n := |items| - 1;
      JoinedEmit(items[..n], separator);
      if All(items).Some? {
        JoinedStep(All(items[..n]).value, items[n].value, Gathered(items[..n]).value, separator);
      }
    }
  }

  lemma {:induction false} JoinedStep(ts: seq<Template>, t: Template, parts: Parts, separator: string)
    requires |ts| == |parts.sql|
    requires Erase(Joined(ts, separator)) == JoinedSql(parts.sql, separator)
    requires Binds(Joined(ts, separator)) == parts.params
    ensures Erase(Joined(ts + [t], separator)) == JoinedSql(parts.sql + [Erase(t)], separator)
    ensures Binds(Joined(ts + [t], separator)) == parts.params + Binds(t)
  {
    if ts == [] {
      assert ts + [t] == [t] && parts.sql + [Erase(t)] == [Erase(t)] && [] + Binds(t) == Binds(t);
    } else {
      JoinedMore(ts, t, separator);
      JoinedSqlMore(parts.sql, Erase(t), separator);
      Separated(Joined(ts, separator), separator, t);
    }
  }

  lemma {:induction false} JoinedMore(ts: seq<Template>, t: Template, separator: string)
    requires ts != []
    ensures Joined(ts + [t], separator) == Joined(ts, separator) + Written(separator) + t
  {
    assert (ts + [t])[..|ts|] == ts;
  }

  lemma {:induction false} JoinedSqlMore(parts: seq<seq<Frag>>, part: seq<Frag>, separator: string)
    requires parts != []
    ensures JoinedSql(parts + [part], separator) == JoinedSql(parts, separator) + [Sql(separator)] + part
  {
    assert (parts + [part])[..|parts|] == parts;
  }

  lemma {:induction false} Separated(a: Template, separator: string, b: Template)
    ensures Erase(a + Written(separator) + b) == Erase(a) + [Sql(separator)] + Erase(b)
    ensures Binds(a + Written(separator) + b) == Binds(a) + Binds(b)
  {
    Singles();
    Concat3(a, Written(separator), b);
    assert Binds(a) + [] == Binds(a);
  }

  lemma {:induction false} GatherDone(items: seq<Option<Template>>, n: nat, parts: Parts, separator: string)
    requires n == |items| && Gathered(items[..n]) == Some(parts)
    ensures Emit(JoinedAll(items, separator)) == Some(Code(JoinedSql(parts.sql, separator), parts.params))
  {
    assert items[..n] == items;
    JoinedEmit(items, separator);
  }

  lemma GatherFailed(items: seq<Option<Template>>, i: nat, separator: string)
    requires i < |items| && items[i].None?
    ensures Emit(JoinedAll(items, separator)) == None
  {
    GatherFails(items, i);
    JoinedEmit(items, separator);
  }

  lemma GatherMore(items: seq<Option<Template>>, i: nat, before: Parts, code: Code)
    requires i < |items| && Gathered(items[..i]) == Some(before) && Emit(items[i]) == Some(code)
    ensures Gathered(items[..i + 1]) == Some(Parts(before.sql + [code.sql], before.params + code.params))
  {
    assert items[..i + 1][..i] == items[..i];
  }

  // ----- computed values -----

  method CompileTerm(d: Dialect, qualified: bool, term: Term) returns (code: Option<Code>)
    ensures code == Emit(TermTemplate(d, qualified, term))
    decreases term, 0
  {
    if term.Nested? {
      code := CompileExpr(d, qualified, term.expr);
    } else {
      BoundEmit(term.value);
      code := Some(Code([Hole], [term.value]));
    }
  }

  method CompileRoot(d: Dialect, qualified: bool, root: Root) returns (code: Option<Code>)
    ensures code == Emit(RootTemplate(d, qualified, root))
    decreases root, 0
  {
    match root
    case ColumnRoot(c) =>
      WrittenEmit(ColumnText(d, qualified, c));
      code := Some(Code([Sql(ColumnText(d, qualified, c))], []));
    case CaseRoot(condition, _, thenTerm, elseTerm) =>
      ghost var t0 := PredTemplate(d, qualified, false, condition);
      ghost var t1, t2 := TermTemplate(d, qualified, thenTerm), TermTemplate(d, qualified, elseTerm);
      BetweenEmit(t0, " THEN ", t1);
      BetweenEmit(Between3(t0, " THEN ", t1), " ELSE ", t2);
      EnclosedEmit("CASE WHEN ", Between3(Between3(t0, " THEN ", t1), " ELSE ", t2), " END");
      var test := CompilePred(d, qualified, false, condition);
      if test.None? {
        return None;
      }
      var first := CompileTerm(d, qualified, thenTerm);
      if first.None? {
        return None;
      }
      var params := test.value.params + first.value.params;
      var second := CompileTerm(d, qualified, elseTerm);
      if second.None? {
        return None;
      }
      params := params + second.value.params;
      code := Some(Code([Sql("CASE WHEN ")]
                        + (test.value.sql + [Sql(" THEN ")] + first.value.sql + [Sql(" ELSE ")] + second.value.sql)
                        + [Sql(" END")], params));
  }

  lemma {:induction false} OperationsFail(d: Dialect, qualified: bool, root: Option<Template>, ops: seq<Operation>, i: nat)
    requires i <= |ops| && OperationsTemplate(d, qualified, root, ops[..i]).None?
    ensures OperationsTemplate(d, qualified, root, ops).None?
    decreases |ops|
  {
    if i == |ops| {
      assert ops[..i] == ops;
    } else {
      assert ops[..|ops| - 1][..i] == ops[..i];
      OperationsFail(d, qualified, root, ops[..|ops| - 1], i);
    }
  }

  method CompileExpr(d: Dialect, qualified: bool, e: Expr) returns (code: Option<Code>)
    ensures code == Emit(ExprTemplate(d, qualified, e))
    decreases e, 0
  {
    ghost var root := RootTemplate(d, qualified, e.root);
    code := CompileRoot(d, qualified, e.root);
    assert e.operations[..0] == [];
    for i := 0 to |e.operations|
      invariant code == Emit(OperationsTemplate(d, qualified, root, e.operations[..i]))
    {
      if code.None? {
        OperationsFail(d, qualified, root, e.operations, i);
        return;
      }
      assert e.operations[..i + 1][..i] == e.operations[..i];
      code := CompileOperation(d, qualified, code.value, e.operations[i],
                               OperationsTemplate(d, qualified, root, e.operations[..i]));
    }
    assert e.operations[..|e.operations|] == e.operations;
  }

  method CompileOperation(d: Dialect, qualified: bool, left: Code, op: Operation, ghost t: Option<Template>)
    returns (code: Option<Code>)
    requires Emit(t) == Some(left)
    ensures code == Emit(OperationTemplate(d, qualified, t, op))
    decreases op, 0
  {
    match op
    case Lower =>
      EnclosedEmit("LOWER(", t, ")");
      code := Some(Code([Sql("LOWER(")] + left.sql + [Sql(")")], left.params));
    case CharLength =>
      if d.charLength.None? {
        return None;
      }
      EnclosedEmit(d.charLength.value + "(", t, ")");
      code := Some(Code([Sql(d.charLength.value + "(")] + left.sql + [Sql(")")], left.params));
    case Combine(operator, right) =>
      ghost var r := TermTemplate(d, qualified, right);
      var between := if operator.Coalesce? then ", " else " " + ArithmeticText(operator) + " ";
      var before := if operator.Coalesce? then "COALESCE(" else "(";
      BetweenEmit(t, between, r);
      EnclosedEmit(before, Between3(t, between, r), ")");
      var other := CompileTerm(d, qualified, right);
      if other.None? {
        return None;
      }
      code := Some(Code([Sql(before)] + (left.sql + [Sql(between)] + other.value.sql) + [Sql(")")],
                        left.params + other.value.params));
  }

  method CompileOperand(d: Dialect, qualified: bool, operand: Operand) returns (code: Option<Code>)
    ensures code == Emit(OperandTemplate(d, qualified, operand))
    decreases operand, 0
  {
    match operand
    case ColumnOperand(c) =>
      WrittenEmit(ColumnText(d, qualified, c));
      code := Some(Code([Sql(ColumnText(d, qualified, c))], []));
    case AggregateOperand(name, argument) =>
      WrittenEmit(AggregateText(d, qualified, name, argument));
      code := Some(Code([Sql(AggregateText(d, qualified, name, argument))], []));
    case ExprOperand(e) => code := CompileExpr(d, qualified, e);
    case LiteralOperand(n) =>
      BoundEmit(Int(n));
      EnclosedEmit(d.integerLiteral.0, Some(Bound(Int(n))), d.integerLiteral.1);
      code := Some(Code([Sql(d.integerLiteral.0)] + [Hole] + [Sql(d.integerLiteral.1)], [Int(n)]));
  }

  // ----- predicates -----

  /** `operand <text> placeholder`, with the encoded value last. */
  method CompileBound(d: Dialect, qualified: bool, operand: Operand, text: string, value: Value)
    returns (code: Option<Code>)
    ensures code
      == Emit(Between3(OperandTemplate(d, qualified, operand), text, Some(Bound(d.encodeCompare(operand, value)))))
    decreases operand, 1
  {
    BetweenEmit(OperandTemplate(d, qualified, operand), text, Some(Bound(d.encodeCompare(operand, value))));
    BoundEmit(d.encodeCompare(operand, value));
    code := CompileOperand(d, qualified, operand);
    if code.Some? {
      code := Some(Code(code.value.sql + [Sql(text)] + [Hole],
                        code.value.params + [d.encodeCompare(operand, value)]));
    }
  }

  method CompileMembers(d: Dialect, operand: Operand, values: seq<Value>) returns (code: Code)
    requires values != []
    ensures Some(code) == Emit(Some(BoundAll(d, operand, values)))
  {
    var sql, params := [Hole], [d.encodeCompare(operand, values[0])];
    Singles();
    assert values[..1] == [values[0]];
    for i := 1 to |values|
      invariant Some(Code(sql, params)) == Emit(Some(BoundAll(d, operand, values[..i])))
    {
      var value := d.encodeCompare(operand, values[i]);
      assert values[..i + 1][..i] == values[..i];
      Concat3(BoundAll(d, operand, values[..i]), Written(", "), Bound(value));
      assert params + [] + [value] == params + [value];
      sql := sql + [Sql(", ")] + [Hole];
      params := params + [value];
    }
    assert values[..|values|] == values;
    code := Code(sql, params);
  }

  method CompileNullTest(d: Dialect, qualified: bool, operand: Operand, negated: bool) returns (code: Option<Code>)
    ensures code == Emit(PredTemplate(d, qualified, false, NullTest(operand, negated)))
    decreases operand, 2
  {
    var after := if negated then " IS NOT NULL" else " IS NULL";
    EnclosedEmit("", OperandTemplate(d, qualified, operand), after);
    code := CompileOperand(d, qualified, operand);
    if code.Some? {
      code := Some(Code([Sql("")] + code.value.sql + [Sql(after)], code.value.params));
    }
  }

  method CompileRange(d: Dialect, qualified: bool, operand: Operand, low: Value, high: Value) returns (code: Option<Code>)
    ensures code == Emit(Between3(Between3(OperandTemplate(d, qualified, operand), " BETWEEN ",
                                           Some(Bound(d.encodeCompare(operand, low)))),
                                  " AND ", Some(Bound(d.encodeCompare(operand, high)))))
    decreases operand, 2
  {
    code := CompileBound(d, qualified, operand, " BETWEEN ", low);
    ghost var t := Between3(OperandTemplate(d, qualified, operand), " BETWEEN ",
                            Some(Bound(d.encodeCompare(operand, low))));
    BetweenEmit(t, " AND ", Some(Bound(d.encodeCompare(operand, high))));
    BoundEmit(d.encodeCompare(operand, high));
    if code.Some? {
      code := Some(Code(code.value.sql + [Sql(" AND ")] + [Hole],
                        code.value.params + [d.encodeCompare(operand, high)]));
    }
  }

  method CompilePred(d: Dialect, qualified: bool, withCtes: bool, p: Pred) returns (code: Option<Code>)
    ensures code == Emit(PredTemplate(d, qualified, withCtes, p))
    decreases p, 1
  {
    match p
    case Compare(operand, op, value) =>
      if value.Null? {
        return None;
      }
      code := CompileBound(d, qualified, operand, ComparisonText(op), value);
    case NullTest(operand, negated) => code := CompileNullTest(d, qualified, operand, negated);
    case Member(operand, values, negated) => code := CompileMember(d, qualified, withCtes, p);
    case Between(operand, low, high) =>
      if low.Null? || high.Null? {
        return None;
      }
      code := CompileRange(d, qualified, operand, low, high);
    case Like(operand, pattern, negated) =>
      if !operand.ColumnOperand? || !operand.column.textual {
        return None;
      }
      code := CompileBound(d, qualified, operand, if negated then " NOT LIKE " else " LIKE ", Str(pattern));
    case CompareOperand(operand, op, other) =>
      BetweenEmit(OperandTemplate(d, qualified, operand), ComparisonText(op), OperandTemplate(d, qualified, other));
      var left := CompileOperand(d, qualified, operand);
      var right := CompileOperand(d, qualified, other);
      code := Linked(left, ComparisonText(op), right);
    case CompareScalar(operand, op, scalar) =>
      BetweenEmit(OperandTemplate(d, qualified, operand), ComparisonText(op), ScalarTemplate(d, withCtes, scalar));
      var left := CompileOperand(d, qualified, operand);
      var right := CompileScalar(d, withCtes, scalar);
      code := Linked(left, ComparisonText(op), right);
    case MemberQuery(operand, query, negated) => code := CompileMember(d, qualified, withCtes, p);
    case Exists(query, negated) =>
      var before := if negated then "NOT EXISTS (" else "EXISTS (";
      EnclosedEmit(before, NestedTemplate(d, withCtes, query), ")");
      var nested := CompileNested(d, withCtes, query);
      code := Wrapped(before, nested, ")");
    case Compound(conjunction, children) =>
      if |children| != 2 {
        return None;
      }
      var between := if conjunction then ") AND (" else ") OR (";
      ghost var a := PredTemplate(d, qualified, withCtes, children[0]);
      ghost var b := PredTemplate(d, qualified, withCtes, children[1]);
      BetweenEmit(a, between, b);
      EnclosedEmit("(", Between3(a, between, b), ")");
      var left := CompilePred(d, qualified, withCtes, children[0]);
      var right := CompilePred(d, qualified, withCtes, children[1]);
      code := Wrapped("(", Linked(left, between, right), ")");
    case Negated(child) =>
      EnclosedEmit("NOT (", PredTemplate(d, qualified, withCtes, child), ")");
      var inner := CompilePred(d, qualified, withCtes, child);
      code := Wrapped("NOT (", inner, ")");
  }

  method CompileMember(d: Dialect, qualified: bool, withCtes: bool, p: Pred) returns (code: Option<Code>)
    requires p.Member? || p.MemberQuery?
    ensures code == Emit(PredTemplate(d, qualified, withCtes, p))
    decreases p, 0
  {
    var text := if p.negated then " NOT IN (" else " IN (";
    ghost var left := OperandTemplate(d, qualified, p.operand);
    var operand := CompileOperand(d, qualified, p.operand);
    if p.Member? {
      if p.values == [] || Null in p.values {
        return None;
      }
      BetweenEmit(left, text, Some(BoundAll(d, p.operand, p.values)));
      EnclosedEmit("", Between3(left, text, Some(BoundAll(d, p.operand, p.values))), ")");
      var members := CompileMembers(d, p.operand, p.values);
      code := Wrapped("", Linked(operand, text, Some(members)), ")");
    } else {
      if p.query.select.wholeModel || p.query.select.labels.Some? || |p.query.select.fields| != 1 {
        return None;
      }
      BetweenEmit(left, text, NestedTemplate(d, withCtes, p.query));
      EnclosedEmit("", Between3(left, text, NestedTemplate(d, withCtes, p.query)), ")");
      var nested := CompileNested(d, withCtes, p.query);
      code := Wrapped("", Linked(operand, text, nested), ")");
    }
  }

  method CompileNested(d: Dialect, withCtes: bool, q: Query) returns (code: Option<Code>)
    ensures code == Emit(NestedTemplate(d, withCtes, q))
    decreases q, 2
  {
    if withCtes {
      code := CompileQuery(d, true, q);
    } else {
      code := CompileSelect(d, true, None, q.select);
    }
  }

  method CompileScalar(d: Dialect, withCtes: bool, q: Query) returns (code: Option<Code>)
    ensures code == Emit(ScalarTemplate(d, withCtes, q))
    decreases q, 3
  {
    if q.select.wholeModel || q.select.labels.Some? || |q.select.fields| != 1 {
      return None;
    }
    EnclosedEmit("(", NestedTemplate(d, withCtes, q), ")");
    var nested := CompileNested(d, withCtes, q);
    code := Wrapped("(", nested, ")");
  }

  method CompilePreds(d: Dialect, qualified: bool, withCtes: bool, ps: seq<Pred>) returns (code: Option<Code>)
    ensures code == Emit(PredsTemplate(d, qualified, withCtes, ps))
    decreases ps, 0
  {
    ghost var items := PredItems(d, qualified, withCtes, ps);
    var sql: seq<seq<Frag>>, params: seq<Value> := [], [];
    for i := 0 to |ps|
      invariant Gathered(items[..i]) == Some(Parts(sql, params))
    {
      EnclosedEmit("(", PredTemplate(d, qualified, withCtes, ps[i]), ")");
      var compiled := CompilePred(d, qualified, withCtes, ps[i]);
      if compiled.None? {
        GatherFailed(items, i, " AND ");
        return None;
      }
      var part := [Sql("(")] + compiled.value.sql + [Sql(")")];
      GatherMore(items, i, Parts(sql, params), Code(part, compiled.value.params));
      sql := sql + [part];
      params := params + compiled.value.params;
    }
    GatherDone(items, |ps|, Parts(sql, params), " AND ");
    code := Some(Code(JoinedSql(sql, " AND "), params));
  }

  // ----- selects -----

  method CompileSource(d: Dialect, source: Source) returns (code: Option<Code>)
    ensures code == Emit(SourceTemplate(d, source))
    decreases source, 1
  {
    match source
    case Direct(relation, marker) =>
      WrittenEmit(RelationText(d, relation, marker));
      code := Some(Code([Sql(RelationText(d, relation, marker))], []));
    case Derived(left, all, right, alias) =>
      var between := if all then " UNION ALL " else " UNION ";
      ghost var a, b := SelectTemplate(d, false, None, left), SelectTemplate(d, false, None, right);
      BetweenEmit(a, between, b);
      EnclosedEmit("(", Between3(a, between, b), ") AS " + d.quote(alias));
      var first := CompileSelect(d, false, None, left);
      var second := CompileSelect(d, false, None, right);
      code := Wrapped("(", Linked(first, between, second), ") AS " + d.quote(alias));
  }

  method CompileField(d: Dialect, qualified: bool, field: Field) returns (code: Option<Code>)
    ensures code == Emit(FieldTemplate(d, qualified, field))
    decreases field, 1
  {
    match field
    case Single(operand) => code := CompileOperand(d, qualified, operand);
    case Scalar(query) => code := CompileScalar(d, false, query);
  }

  /** Adding the presence marker after the fields. */
  lemma MarkedFails(items: seq<Option<Template>>, marker: seq<Option<Template>>, i: nat)
    requires i < |items| && items[i].None?
    ensures Emit(JoinedAll(items + marker, ", ")) == None
  {
    GatherFailed(items + marker, i, ", ");
  }

  lemma {:induction false} MarkedDone(items: seq<Option<Template>>, parts: Parts, text: string)
    requires Gathered(items) == Some(parts)
    ensures Emit(JoinedAll(items + [Some(Written(text))], ", "))
            == Some(Code(JoinedSql(parts.sql + [[Sql(text)]], ", "), parts.params))
  {
    WrittenEmit(text);
    Append(items, Written(text));
    assert parts.params + [] == parts.params;
    JoinedEmit(items + [Some(Written(text))], ", ");
  }

  function Marker(d: Dialect, presence: Option<string>): seq<Option<Template>> {
    if presence.None? then [] else [Some(Written("1 AS " + d.quote(presence.value)))]
  }

  method CompileLabelled(d: Dialect, qualified: bool, s: Select, i: nat) returns (code: Option<Code>)
    requires i < |s.fields| && (s.labels.Some? ==> |s.labels.value| == |s.fields|)
    ensures code == Emit(FieldItems(d, qualified, s)[i])
    decreases s.fields[i], 2
  {
    code := CompileField(d, qualified, s.fields[i]);
    if s.labels.Some? {
      var after := " AS " + d.quote(s.labels.value[i]);
      EnclosedEmit("", FieldTemplate(d, qualified, s.fields[i]), after);
      code := Wrapped("", code, after);
    }
  }

  method CompileFields(d: Dialect, qualified: bool, s: Select, presence: Option<string>) returns (code: Option<Code>)
    ensures code == Emit(FieldsTemplate(d, qualified, s, presence))
    decreases s, 0
  {
    if s.labels.Some? && |s.labels.value| != |s.fields| {
      return None;
    }
    ghost var items := FieldItems(d, qualified, s);
    var sql: seq<seq<Frag>>, params: seq<Value> := [], [];
    assert items + Marker(d, None) == items;
    for i := 0 to |s.fields|
      invariant Gathered(items[..i]) == Some(Parts(sql, params))
    {
      var field := CompileLabelled(d, qualified, s, i);
      if field.None? {
        MarkedFails(items, Marker(d, presence), i);
        return None;
      }
      GatherMore(items, i, Parts(sql, params), field.value);
      sql := sql + [field.value.sql];
      params := params + field.value.params;
    }
    if presence.Some? {
      var marker := "1 AS " + d.quote(presence.value);
      assert items[..|s.fields|] == items;
      MarkedDone(items, Parts(sql, params), marker);
      sql := sql + [[Sql(marker)]];
    } else {
      GatherDone(items, |s.fields|, Parts(sql, params), ", ");
    }
    code := Some(Code(JoinedSql(sql, ", "), params));
  }

  method CompileJoin(d: Dialect, join: Join) returns (code: Option<Code>)
    ensures code == Emit(JoinTemplate(d, join))
    decreases join, 0
  {
    var before :=
      (if join.outer then "LEFT" else "INNER") + " JOIN " + RelationText(d, join.relation, join.marker) + " ON ";
    EnclosedEmit(before, PredTemplate(d, true, false, join.on), "");
    var on := CompilePred(d, true, false, join.on);
    code := Wrapped(before, on, "");
  }

  method CompileJoins(d: Dialect, joins: seq<Join>) returns (parts: Option<Parts>)
    ensures parts == Gathered(JoinItems(d, joins))
    decreases joins, 1
  {
    ghost var items := JoinItems(d, joins);
    var sql: seq<seq<Frag>>, params: seq<Value> := [], [];
    for i := 0 to |joins|
      invariant Gathered(items[..i]) == Some(Parts(sql, params))
    {
      GatherNext(items, i);
      var join := CompileJoin(d, joins[i]);
      if join.None? {
        return None;
      }
      sql := sql + [join.value.sql];
      params := params + join.value.params;
    }
    assert items[..|joins|] == items;
    parts := Some(Parts(sql, params));
  }

  lemma {:induction false} NoBinds(t: Template)
    ensures Binds(t) == [] <==> !exists i :: 0 <= i < |t| && t[i].Bind?
  {
    if t != [] {
      var n := |t| - 1;
      NoBinds(t[..n]);
      assert forall i :: 0 <= i < n ==> t[..n][i] == t[i];
    }
  }

  /** Orderings never bind: one that would is refused. */
  method CompileOrdering(d: Dialect, qualified: bool, o: Ordering) returns (code: Option<Code>)
    ensures code == Emit(OrderingTemplate(d, qualified, o))
    ensures code.Some? ==> code.value.params == []
    decreases o, 0
  {
    var after := if o.descending then " DESC" else " ASC";
    ghost var t := OperandTemplate(d, qualified, o.operand);
    EnclosedEmit("", t, after);
    var operand := CompileOperand(d, qualified, o.operand);
    if operand.None? {
      return None;
    }
    NoBinds(t.value);
    if operand.value.params != [] {
      return None;
    }
    code := Wrapped("", operand, after);
  }

  method CompileOrderings(d: Dialect, qualified: bool, orderings: seq<Ordering>) returns (code: Option<Code>)
    ensures code == Emit(JoinedAll(OrderingItems(d, qualified, orderings), ", "))
    decreases orderings, 1
  {
    ghost var items := OrderingItems(d, qualified, orderings);
    var sql: seq<seq<Frag>> := [];
    for i := 0 to |orderings|
      invariant Gathered(items[..i]) == Some(Parts(sql, []))
    {
      var ordering := CompileOrdering(d, qualified, orderings[i]);
      if ordering.None? {
        GatherFailed(items, i, ", ");
        return None;
      }
      GatherMore(items, i, Parts(sql, []), ordering.value);
      sql := sql + [ordering.value.sql];
    }
    GatherDone(items, |orderings|, Parts(sql, []), ", ");
    code := Some(Code(JoinedSql(sql, ", "), []));
  }

  /** A single clause wrapped as a list of clauses. */
  lemma OneClause(t: Option<Template>)
    ensures Gathered([t]) == if t.None? then None else Some(Parts([Erase(t.value)], Binds(t.value)))
  {
    assert [t][..0] == [];
    if t.Some? {
      assert [] + [Erase(t.value)] == [Erase(t.value)] && [] + Binds(t.value) == Binds(t.value);
    }
  }

  function Clause(code: Option<Code>): Option<Parts> {
    if code.None? then None else Some(Parts([code.value.sql], code.value.params))
  }

  method CompileWhere(d: Dialect, qualified: bool, keyword: string, ps: seq<Pred>) returns (parts: Option<Parts>)
    ensures parts == Gathered(FilterClauses(d, qualified, keyword, ps))
    decreases ps, 1
  {
    if ps == [] {
      return Some(Parts([], []));
    }
    OneClause(Enclosed(keyword, PredsTemplate(d, qualified, false, ps), ""));
    EnclosedEmit(keyword, PredsTemplate(d, qualified, false, ps), "");
    var code := CompilePreds(d, qualified, false, ps);
    parts := Clause(Wrapped(keyword, code, ""));
  }

  method CompileLimit(d: Dialect, s: Select) returns (parts: Parts)
    ensures Some(parts) == Gathered(LimitClauses(d, s))
  {
    var sql: seq<seq<Frag>>, params: seq<Value> := [], [];
    ghost var items: seq<Option<Template>> := [];
    Singles();
    if s.limit.Some? {
      Append(items, Written("LIMIT ") + Bound(Int(s.limit.value)));
      items := items + [Some(Written("LIMIT ") + Bound(Int(s.limit.value)))];
      PlaceholderEmit("LIMIT ", Int(s.limit.value));
      sql, params := sql + [[Sql("LIMIT ")] + [Hole]], params + [Int(s.limit.value)];
    }
    if s.offset.Some? {
      if s.limit.None? {
        Append(items, Written(d.offsetOnly));
        items := items + [Some(Written(d.offsetOnly))];
        sql := sql + [[Sql(d.offsetOnly)]];
      }
      Append(items, Written("OFFSET ") + Bound(Int(s.offset.value)));
      items := items + [Some(Written("OFFSET ") + Bound(Int(s.offset.value)))];
      PlaceholderEmit("OFFSET ", Int(s.offset.value));
      sql, params := sql + [[Sql("OFFSET ")] + [Hole]], params + [Int(s.offset.value)];
    }
    assert items == LimitClauses(d, s);
    parts := Parts(sql, params);
  }

  lemma {:induction false} Append(items: seq<Option<Template>>, t: Template)
    requires Gathered(items).Some?
    ensures
      var before := Gathered(items).value;
      Gathered(items + [Some(t)]) == Some(Parts(before.sql + [Erase(t)], before.params + Binds(t)))
  {
    assert (items + [Some(t)])[..|items|] == items;
  }

  lemma PlaceholderEmit(s: string, v: Value)
    ensures Erase(Written(s) + Bound(v)) == [Sql(s)] + [Hole] && Binds(Written(s) + Bound(v)) == [v]
  {
    Singles();
    EraseConcat(Written(s), Bound(v));
    BindsConcat(Written(s), Bound(v));
  }

  method CompileLock(d: Dialect, s: Select, nested: bool) returns (parts: Option<Parts>)
    ensures parts == Gathered(LockClauses(d, s, nested))
  {
    if s.lock.None? {
      return Some(Parts([], []));
    }
    if d.forUpdate.None? || !s.source.Direct? || s.source.relation.CteOf? || nested {
      OneClause(None);
      return None;
    }
    if s.distinct || s.joins != [] || s.groupings != [] || s.having != []
       || (exists f :: f in s.fields && f.Single? && IsAggregate(f.operand))
       || (exists o :: o in s.orderings && IsAggregate(o.operand)) {
      OneClause(None);
      return None;
    }
    OneClause(Some(Written(d.forUpdate.value(s.lock.value))));
    Singles();
    parts := Some(Parts([[Sql(d.forUpdate.value(s.lock.value))]], []));
  }

  method CompileHead(d: Dialect, qualified: bool, presence: Option<string>, s: Select) returns (parts: Option<Parts>)
    ensures parts == Gathered([HeadClause(d, qualified, presence, s)])
    decreases s, 1
  {
    var keyword := if s.distinct then "SELECT DISTINCT " else "SELECT ";
    ghost var a, b := FieldsTemplate(d, qualified, s, presence), SourceTemplate(d, s.source);
    BetweenEmit(a, " FROM ", b);
    EnclosedEmit(keyword, Between3(a, " FROM ", b), "");
    OneClause(Enclosed(keyword, Between3(a, " FROM ", b), ""));
    var columns := CompileFields(d, qualified, s, presence);
    if columns.None? {
      return None;
    }
    var params := columns.value.params;
    var source := CompileSource(d, s.source);
    if source.None? {
      return None;
    }
    params := params + source.value.params;
    parts := Some(Parts([[Sql(keyword)] + (columns.value.sql + [Sql(" FROM ")] + source.value.sql) + [Sql("")]], params));
  }

  lemma ClausesSplit(t: seq<seq<Option<Template>>>)
    requires |t| == 8
    ensures Gathered(t[0] + t[1] + t[2] + t[3] + t[4] + t[5] + t[6] + t[7])
            == Both(Both(Both(Both(Both(Both(Both(Gathered(t[0]), Gathered(t[1])), Gathered(t[2])), Gathered(t[3])),
                 Gathered(t[4])), Gathered(t[5])), Gathered(t[6])), Gathered(t[7]))
  {
    GatheredConcat(t[0], t[1]);
    GatheredConcat(t[0] + t[1], t[2]);
    GatheredConcat(t[0] + t[1] + t[2], t[3]);
    GatheredConcat(t[0] + t[1] + t[2] + t[3], t[4]);
    GatheredConcat(t[0] + t[1] + t[2] + t[3] + t[4], t[5]);
    GatheredConcat(t[0] + t[1] + t[2] + t[3] + t[4] + t[5], t[6]);
    GatheredConcat(t[0] + t[1] + t[2] + t[3] + t[4] + t[5] + t[6], t[7]);
  }

  /** Each clause adds its text and its parameters after those of the clauses before it. */
  method CompileSelect(d: Dialect, nested: bool, presence: Option<string>, s: Select) returns (code: Option<Code>)
    ensures code == Emit(SelectTemplate(d, nested, presence, s))
    decreases s, 3
  {
    var qualified := nested || s.joins != [];
    var parts := CompileHead(d, qualified, presence, s);
    var joins := CompileJoins(d, s.joins);
    parts := Both(parts, joins);
    var filter := CompileWhere(d, qualified, "WHERE ", s.predicates);
    parts := Both(parts, filter);
    var groups := CompileGroups(d, qualified, s.groupings);
    parts := Both(parts, Some(groups));
    var having := CompileWhere(d, qualified, "HAVING ", s.having);
    parts := Both(parts, having);
    var order := CompileOrder(d, qualified, s.orderings);
    parts := Both(parts, order);
    var limit := CompileLimit(d, s);
    parts := Both(parts, Some(limit));
    var lock := CompileLock(d, s, nested);
    parts := Both(parts, lock);
    ClausesSplit([[HeadClause(d, qualified, presence, s)], JoinItems(d, s.joins),
                  FilterClauses(d, qualified, "WHERE ", s.predicates), GroupClauses(d, qualified, s.groupings),
                  FilterClauses(d, qualified, "HAVING ", s.having), OrderClauses(d, qualified, s.orderings),
                  LimitClauses(d, s), LockClauses(d, s, nested)]);
    JoinedEmit(SelectClauses(d, nested, presence, s), " ");
    code := JoinedCode(parts, " ");
  }

  method CompileGroups(d: Dialect, qualified: bool, columns: seq<Column>) returns (parts: Parts)
    ensures Some(parts) == Gathered(GroupClauses(d, qualified, columns))
  {
    if columns == [] {
      return Parts([], []);
    }
    OneClause(Some(Written(GroupText(d, qualified, columns))));
    Singles();
    parts := Parts([[Sql(GroupText(d, qualified, columns))]], []);
  }

  method CompileOrder(d: Dialect, qualified: bool, orderings: seq<Ordering>) returns (parts: Option<Parts>)
    ensures parts == Gathered(OrderClauses(d, qualified, orderings))
    decreases orderings, 2
  {
    if orderings == [] {
      return Some(Parts([], []));
    }
    ghost var t := JoinedAll(OrderingItems(d, qualified, orderings), ", ");
    EnclosedEmit("ORDER BY ", t, "");
    OneClause(Enclosed("ORDER BY ", t, ""));
    var code := CompileOrderings(d, qualified, orderings);
    parts := Clause(Wrapped("ORDER BY ", code, ""));
  }

  method CompileDefinition(d: Dialect, definition: Definition) returns (code: Option<Code>)
    ensures code == Emit(DefinitionTemplate(d, definition))
    decreases definition, 1
  {
    var before := d.quote(definition.name) + " AS (";
    ghost var state := SelectTemplate(d, false, definition.presence, definition.state);
    var body := CompileSelect(d, false, definition.presence, definition.state);
    if definition.step.None? {
      EnclosedEmit(before, state, ")");
      code := Wrapped(before, body, ")");
    } else {
      ghost var step := SelectTemplate(d, false, definition.presence, definition.step.value);
      BetweenEmit(state, " UNION ALL ", step);
      EnclosedEmit(before, Between3(state, " UNION ALL ", step), ")");
      var member := CompileSelect(d, false, definition.presence, definition.step.value);
      code := Wrapped(before, Linked(body, " UNION ALL ", member), ")");
    }
  }

  method CompileDefinitions(d: Dialect, definitions: seq<Definition>) returns (code: Option<Code>)
    ensures code == Emit(JoinedAll(DefinitionItems(d, definitions), ", "))
    decreases definitions, 2
  {
    ghost var items := DefinitionItems(d, definitions);
    var sql: seq<seq<Frag>>, params: seq<Value> := [], [];
    JoinedEmit(items, ", ");
    for i := 0 to |definitions|
      invariant Gathered(items[..i]) == Some(Parts(sql, params))
    {
      GatherNext(items, i);
      var compiled := CompileDefinition(d, definitions[i]);
      if compiled.None? {
        return None;
      }
      sql := sql + [compiled.value.sql];
      params := params + compiled.value.params;
    }
    assert items[..|definitions|] == items;
    code := Some(Code(JoinedSql(sql, ", "), params));
  }

  method CompileQuery(d: Dialect, nested: bool, q: Query) returns (code: Option<Code>)
    ensures code == Emit(StatementTemplate(d, nested, q))
    decreases q, 1
  {
    ghost var select := SelectTemplate(d, nested, None, q.select);
    code := CompileSelect(d, nested, None, q.select);
    if q.definitions == [] {
      return;
    }
    ghost var items := JoinedAll(DefinitionItems(d, q.definitions), ", ");
    var prefix := CompileDefinitions(d, q.definitions);
    var keyword := if AnyRecursive(q.definitions) then "WITH RECURSIVE " else "WITH ";
    EnclosedEmit(keyword, items, "");
    BetweenEmit(Enclosed(keyword, items, ""), " ", select);
    code := Linked(Wrapped(keyword, prefix, ""), " ", code);
  }

  /** What a driver sees of a select statement: filling the placeholders from left to right with the
      parameters gives the direct rendering. */
  method CompileSelectSql(d: Dialect, q: Query) returns (code: Option<Code>)
    ensures code.None? <==> StatementTemplate(d, false, q).None?
    ensures code.Some? ==> Filled(code.value.sql, code.value.params) == StatementTemplate(d, false, q)
  {
    code := CompileQuery(d, false, q);
    if code.Some? {
      EmittedFillsBack(StatementTemplate(d, false, q).value);
    }
  }

  // ----- writes -----

  method CompileAssignment(d: Dialect, upsert: bool, a: Assignment) returns (code: Option<Code>)
    ensures code == Emit(AssignmentTemplate(d, upsert, a))
  {
    var column := d.quote(a.column.name);
    match a.source
    case InsertedValue =>
      if !upsert {
        return None;
      }
      WrittenEmit(column + " = " + d.insertedValue(column));
      code := Some(Code([Sql(column + " = " + d.insertedValue(column))], []));
    case CurrentTimestamp =>
      WrittenEmit(column + " = " + d.currentTimestamp(a.column));
      code := Some(Code([Sql(column + " = " + d.currentTimestamp(a.column))], []));
    case Computed(e) =>
      if upsert {
        return None;
      }
      EnclosedEmit(column + " = ", ExprTemplate(d, false, e), "");
      var value := CompileExpr(d, false, e);
      code := Wrapped(column + " = ", value, "");
    case Plain(v) =>
      PlaceholderEmit(column + " = ", d.encodeWrite(a.column, v));
      code := Some(Code([Sql(column + " = ")] + [Hole], [d.encodeWrite(a.column, v)]));
  }

  method CompileAssignments(d: Dialect, upsert: bool, assignments: seq<Assignment>) returns (code: Option<Code>)
    ensures code == Emit(AssignmentsTemplate(d, upsert, assignments))
  {
    ghost var items := AssignmentItems(d, upsert, assignments);
    var sql: seq<seq<Frag>>, params: seq<Value> := [], [];
    for i := 0 to |assignments|
      invariant Gathered(items[..i]) == Some(Parts(sql, params))
    {
      var compiled := CompileAssignment(d, upsert, assignments[i]);
      if compiled.None? {
        GatherFailed(items, i, ", ");
        return None;
      }
      GatherMore(items, i, Parts(sql, params), compiled.value);
      sql := sql + [compiled.value.sql];
      params := params + compiled.value.params;
    }
    GatherDone(items, |assignments|, Parts(sql, params), ", ");
    code := Some(Code(JoinedSql(sql, ", "), params));
  }

  method CompileConflict(d: Dialect, conflict: Conflict, returning: bool) returns (code: Option<Code>)
    ensures code == Emit(ConflictTemplate(d, conflict, returning))
  {
    match conflict
    case Unhandled =>
      assert Erase([]) == [];
      code := Some(Code([], []));
    case DoNothing(targets) =>
      if returning {
        return None;
      }
      WrittenEmit(d.conflictNothing(Quoted(d, targets)));
      code := Some(Code([Sql(d.conflictNothing(Quoted(d, targets)))], []));
    case DoUpdate(targets, assignments) =>
      var around := d.conflictUpdate(Quoted(d, targets));
      EnclosedEmit(around.0, AssignmentsTemplate(d, true, assignments), around.1);
      var sets := CompileAssignments(d, true, assignments);
      code := Wrapped(around.0, sets, around.1);
  }

  method EncodeRow(d: Dialect, columns: seq<Column>, values: seq<Option<Value>>)
    returns (names: seq<Column>, encoded: seq<Value>)
    requires |columns| == |values|
    ensures names == SetColumns(columns, values) && encoded == SetValues(d, columns, values)
  {
    names, encoded := [], [];
    for i := 0 to |columns|
      invariant names == SetColumns(columns[..i], values[..i])
      invariant encoded == SetValues(d, columns[..i], values[..i])
    {
      assert columns[..i + 1][..i] == columns[..i] && values[..i + 1][..i] == values[..i];
      if values[i].Some? {
        names := names + [columns[i]];
        encoded := encoded + [d.encodeWrite(columns[i], values[i].value)];
      }
    }
    assert columns[..|columns|] == columns && values[..|values|] == values;
  }

  function BoundItems(values: seq<Value>): seq<Option<Template>> {
    seq(|values|, i requires 0 <= i < |values| => Some(Bound(values[i])))
  }

  lemma {:induction false} AllPresent(ts: seq<Template>, items: seq<Option<Template>>)
    requires |ts| == |items| && forall i :: 0 <= i < |ts| ==> items[i] == Some(ts[i])
    ensures All(items) == Some(ts)
  {
    if ts != [] {
      AllPresent(ts[..|ts| - 1], items[..|ts| - 1]);
      assert ts[..|ts| - 1] + [ts[|ts| - 1]] == ts;
    }
  }

  /** One row's placeholders: as many as it has values, and nothing of the values themselves. */
  method RowPlaceholders(values: seq<Value>) returns (sql: seq<Frag>)
    ensures Emit(Some(RowTemplate(values))) == Some(Code(sql, values))
  {
    ghost var items := BoundItems(values);
    var holes: seq<seq<Frag>> := [];
    for i := 0 to |values|
      invariant Gathered(items[..i]) == Some(Parts(holes, values[..i]))
    {
      BoundEmit(values[i]);
      GatherMore(items, i, Parts(holes, values[..i]), Code([Hole], [values[i]]));
      TakeNext(values, i);
      holes := holes + [[Hole]];
    }
    TakeAll(values);
    GatherDone(items, |values|, Parts(holes, values), ", ");
    RowJoined(values);
    sql := [Sql("(")] + JoinedSql(holes, ", ") + [Sql(")")];
  }

  lemma TakeNext<T>(s: seq<T>, i: nat)
    requires i < |s|
    ensures s[..i] + [s[i]] == s[..i + 1]
  {
  }

  lemma TakeAll<T>(s: seq<T>)
    ensures s[..|s|] == s
  {
  }

  lemma RowJoined(values: seq<Value>)
    ensures Emit(Some(RowTemplate(values))) == Wrapped("(", Emit(JoinedAll(BoundItems(values), ", ")), ")")
  {
    var ts := seq(|values|, i requires 0 <= i < |values| => Bound(values[i]));
    AllPresent(ts, BoundItems(values));
    EnclosedEmit("(", Some(Joined(ts, ", ")), ")");
  }

  function RowItems(d: Dialect, insert: Insert): seq<Option<Template>>
    requires WellFormed(insert)
  {
    seq(|insert.rows|, i requires 0 <= i < |insert.rows| =>
      Some(RowTemplate(SetValues(d, insert.columns, insert.rows[i].values))))
  }

  lemma RowsJoined(d: Dialect, insert: Insert)
    requires WellFormed(insert)
    ensures JoinedAll(RowItems(d, insert), ", ") == Some(RowsTemplate(d, insert))
  {
    AllPresent(seq(|insert.rows|, i requires 0 <= i < |insert.rows| =>
                     RowTemplate(SetValues(d, insert.columns, insert.rows[i].values))), RowItems(d, insert));
  }

  /** All rows must be of the model and set the columns the first one sets. */
  method RowsAgree(d: Dialect, insert: Insert) returns (ok: bool)
    requires WellFormed(insert) && insert.rows != []
    ensures ok == SameColumns(insert)
  {
    var names, _ := EncodeRow(d, insert.columns, insert.rows[0].values);
    for i := 0 to |insert.rows|
      invariant forall k :: 0 <= k < i ==>
        insert.rows[k].model == insert.model && SetColumns(insert.columns, insert.rows[k].values) == names
    {
      var own, _ := EncodeRow(d, insert.columns, insert.rows[i].values);
      if insert.rows[i].model != insert.model || own != names {
        return false;
      }
    }
    ok := true;
  }

  /** The rows' values follow row by row, each in column order. */
  method CompileRows(d: Dialect, insert: Insert) returns (code: Code)
    requires WellFormed(insert)
    ensures Some(code) == Emit(Some(RowsTemplate(d, insert)))
  {
    ghost var items := RowItems(d, insert);
    RowsJoined(d, insert);
    JoinedEmit(items, ", ");
    var sql: seq<seq<Frag>>, params: seq<Value> := [], [];
    for i := 0 to |insert.rows|
      invariant Gathered(items[..i]) == Some(Parts(sql, params))
    {
      var _, values := EncodeRow(d, insert.columns, insert.rows[i].values);
      GatherNext(items, i);
      var row := RowPlaceholders(values);
      sql := sql + [row];
      params := params + values;
    }
    assert items[..|insert.rows|] == items;
    code := Code(JoinedSql(sql, ", "), params);
  }

  method CompileInsert(d: Dialect, insert: Insert) returns (code: Option<Code>)
    requires WellFormed(insert)
    ensures code == Emit(InsertTemplate(d, insert))
    ensures code.Some? ==> Filled(code.value.sql, code.value.params) == InsertTemplate(d, insert)
  {
    if insert.rows == [] {
      return None;
    }
    var agree := RowsAgree(d, insert);
    var returning := ReturningText(d, insert.returning);
    if !agree || returning.None? {
      return None;
    }
    var names, _ := EncodeRow(d, insert.columns, insert.rows[0].values);
    if names == [] {
      if |insert.rows| > 1 || !insert.conflict.Unhandled? {
        return None;
      }
      var text := d.emptyInsert(d.quote(insert.table)) + returning.value;
      WrittenEmit(text);
      EmittedFillsBack(Written(text));
      return Some(Code([Sql(text)], []));
    }
    var before := "INSERT INTO " + d.quote(insert.table) + " (" + JoinedText(Quoted(d, names), ", ") + ") VALUES ";
    ghost var a, b := Some(RowsTemplate(d, insert)), ConflictTemplate(d, insert.conflict, insert.returning.Some?);
    BetweenEmit(a, "", b);
    EnclosedEmit(before, Between3(a, "", b), returning.value);
    var rows := CompileRows(d, insert);
    var conflict := CompileConflict(d, insert.conflict, insert.returning.Some?);
    code := Wrapped(before, Linked(Some(rows), "", conflict), returning.value);
    if code.Some? {
      EmittedFillsBack(InsertTemplate(d, insert).value);
    }
  }

  /** Refuses a computed value that reads a column another assignment object writes. */
  method EnsureIndependent(assignments: seq<Assignment>) returns (ok: bool)
    ensures ok == Independent(assignments)
  {
    for i := 0 to |assignments|
      invariant forall k :: 0 <= k < i ==> !ReadsAnother(assignments, assignments[k])
    {
      var a := assignments[i];
      if a.source.Computed? {
        var columns := Expressions.CollectReferenced(a.source.expr);
        for j := 0 to |assignments|
          invariant forall k :: 0 <= k < j ==> !(assignments[k].column in columns && assignments[k].id != a.id)
        {
          if assignments[j].column in columns && assignments[j].id != a.id {
            return false;
          }
        }
      }
    }
    ok := true;
  }

  method CompileWriteWhere(d: Dialect, predicates: seq<Pred>) returns (code: Option<Code>)
    ensures code == Emit(WhereTemplate(d, predicates))
  {
    if predicates == [] {
      assert Erase([]) == [];
      return Some(Code([], []));
    }
    EnclosedEmit(" WHERE ", PredsTemplate(d, false, true, predicates), "");
    var filter := CompilePreds(d, false, true, predicates);
    code := Wrapped(" WHERE ", filter, "");
  }

  method CompileUpdate(d: Dialect, update: Update) returns (code: Option<Code>)
    ensures code == Emit(UpdateTemplate(d, update))
    ensures code.Some? ==> Filled(code.value.sql, code.value.params) == UpdateTemplate(d, update)
  {
    if update.assignments == [] || (!update.everyRow && update.predicates == []) {
      return None;
    }
    var independent := EnsureIndependent(update.assignments);
    if !independent {
      return None;
    }
    var returning := ReturningText(d, update.returning);
    if returning.None? || (update.returning.Some? && !d.updateReturning) {
      return None;
    }
    var before := "UPDATE " + d.quote(update.table) + " SET ";
    ghost var a, b := AssignmentsTemplate(d, false, update.assignments), WhereTemplate(d, update.predicates);
    BetweenEmit(a, "", b);
    EnclosedEmit(before, Between3(a, "", b), returning.value);
    var sets := CompileAssignments(d, false, update.assignments);
    var filter := CompileWriteWhere(d, update.predicates);
    code := Wrapped(before, Linked(sets, "", filter), returning.value);
    if code.Some? {
      EmittedFillsBack(UpdateTemplate(d, update).value);
    }
  }

  method CompileDelete(d: Dialect, delete: Delete) returns (code: Option<Code>)
    ensures code == Emit(DeleteTemplate(d, delete))
    ensures code.Some? ==> Filled(code.value.sql, code.value.params) == DeleteTemplate(d, delete)
  {
    if !delete.everyRow && delete.predicates == [] {
      return None;
    }
    var returning := ReturningText(d, delete.returning);
    if returning.None? || (delete.returning.Some? && !d.deleteReturning) {
      return None;
    }
    var before := "DELETE FROM " + d.quote(delete.table);
    EnclosedEmit(before, WhereTemplate(d, delete.predicates), returning.value);
    var filter := CompileWriteWhere(d, delete.predicates);
    code := Wrapped(before, filter, returning.value);
    if code.Some? {
      EmittedFillsBack(DeleteTemplate(d, delete).value);
    }
  }
}
