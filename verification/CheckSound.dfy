/** What the binder and the catalog reader build is what normalization and its meaning need. */
module CheckSound {
  import opened TextCodec
  import opened CheckTree
  import opened CheckLexer
  import CheckMeaning
  import opened CheckParser
  import opened CheckRender
  import opened CheckCatalog

  // ----- bound trees -----

  lemma {:induction false} LeafStays(e: CheckExpression)
    requires IsColumn(e) || IsLiteral(e)
    ensures NotsHaveOperand(e) && CheckMeaning.OperandsStay(e) && !CheckMeaning.Collapses(e)
  {
  }

  lemma {:induction false} LeavesStay(es: seq<CheckExpression>)
    requires forall i :: 0 <= i < |es| ==> IsColumn(es[i]) || IsLiteral(es[i])
    ensures AllNotsHaveOperand(es) && CheckMeaning.AllOperandsStay(es) && CheckMeaning.NoneCollapse(es)
  {
    if es != [] {
      LeafStays(es[0]);
      LeavesStay(es[1..]);
    }
  }

  /** Every tree the binder builds has an operand under each NOT, and operands that stay. */
  lemma {:induction false} BoundStays(e: CheckExpression)
    requires IsBound(e)
    ensures NotsHaveOperand(e) && CheckMeaning.OperandsStay(e)
    decreases e
  {
    if e.operator.And? || e.operator.Or? {
      BoundStays(e.arguments[0]);
      BoundStays(e.arguments[1]);
      var last := e.arguments[1..];
      assert last[0] == e.arguments[1] && last[1..] == [];
      assert AllNotsHaveOperand(last) && CheckMeaning.AllOperandsStay(last);
    } else if e.operator.Not? {
      BoundStays(e.arguments[0]);
      assert e.arguments[1..] == [];
    } else {
      LeavesStay(e.arguments);
    }
  }

  // ----- parsed trees -----

  predicate Proper(p: Parse<CheckExpression>) {
    p.Ok? ==> NotsHaveOperand(p.result)
  }

  lemma {:induction false} ProperNode(op: Operator, first: CheckExpression, rest: seq<CheckExpression>)
    requires NotsHaveOperand(first) && AllNotsHaveOperand(rest)
    ensures NotsHaveOperand(Node(op, [first] + rest))
  {
    assert ([first] + rest)[1..] == rest;
  }

  lemma {:induction false} ProperOne(op: Operator, e: CheckExpression)
    requires NotsHaveOperand(e)
    ensures NotsHaveOperand(Node(op, [e]))
  {
    ProperNode(op, e, []);
    assert [e] + [] == [e];
  }

  lemma {:induction false} ProperTwo(op: Operator, a: CheckExpression, b: CheckExpression)
    requires NotsHaveOperand(a) && NotsHaveOperand(b)
    ensures NotsHaveOperand(Node(op, [a, b]))
  {
    ProperSnoc([], b);
    assert [] + [b] == [b] && [a] + [b] == [a, b];
    ProperNode(op, a, [b]);
  }

  lemma {:induction false} ProperThree(op: Operator, a: CheckExpression, b: CheckExpression, c: CheckExpression)
    requires NotsHaveOperand(a) && NotsHaveOperand(b) && NotsHaveOperand(c)
    ensures NotsHaveOperand(Node(op, [a, b, c]))
  {
    ProperTwo(op, b, c);
    assert [a] + [b, c] == [a, b, c];
    ProperNode(op, a, [b, c]);
  }

  lemma {:induction false} ProperSnoc(es: seq<CheckExpression>, e: CheckExpression)
    requires AllNotsHaveOperand(es) && NotsHaveOperand(e)
    ensures AllNotsHaveOperand(es + [e])
  {
    if es == [] {
      assert (es + [e])[1..] == [];
    } else {
      ProperSnoc(es[1..], e);
      assert (es + [e])[1..] == es[1..] + [e];
    }
  }

  lemma {:induction false} ChainProper(keywords: bool, op: Operator, ts: seq<Token>)
    requires op.And? || op.Or?
    ensures Proper(Chain(keywords, op, ts))
    decreases |ts|, if op.And? then 2 else 4
  {
    ChildProper(keywords, op, ts);
    var child := ChainChild(keywords, op, ts);
    if child.Ok? {
      TailProper(keywords, op, child.result, child.rest);
    }
  }

  lemma {:induction false} ChildProper(keywords: bool, op: Operator, ts: seq<Token>)
    requires op.And? || op.Or?
    ensures Proper(ChainChild(keywords, op, ts))
    decreases |ts|, if op.And? then 1 else 3
  {
    if op.And? {
      ComparisonProper(keywords, ts);
    } else {
      ChainProper(keywords, And, ts);
    }
  }

  lemma {:induction false} TailProper(keywords: bool, op: Operator, left: CheckExpression, ts: seq<Token>)
    requires (op.And? || op.Or?) && NotsHaveOperand(left)
    ensures Proper(ChainTail(keywords, op, left, ts))
    decreases |ts|
  {
    if Accepts(ts, OperatorWord(op)) {
      ChildProper(keywords, op, ts[1..]);
      var child := ChainChild(keywords, op, ts[1..]);
      if child.Ok? {
        ProperTwo(op, left, child.result);
        TailProper(keywords, op, Node(op, [left, child.result]), child.rest);
      }
    }
  }

  lemma {:induction false} ComparisonProper(keywords: bool, ts: seq<Token>)
    ensures Proper(Comparison(keywords, ts))
    decreases |ts|, 0, 1
  {
    if Accepts(ts, "NOT") {
      ComparisonProper(keywords, ts[1..]);
      var child := Comparison(keywords, ts[1..]);
      if child.Ok? {
        ProperOne(Not, child.result);
      }
    } else {
      OperandProper(keywords, ts);
      var left := Operand(keywords, ts);
      if left.Ok? {
        AfterProper(keywords, left.result, left.rest);
      }
    }
  }

  lemma {:induction false} AfterProper(keywords: bool, left: CheckExpression, ts: seq<Token>)
    requires NotsHaveOperand(left)
    ensures Proper(AfterOperand(keywords, left, ts))
    decreases |ts|, 0, 2
  {
    ProperOne(IsNull, left);
    ProperOne(IsNotNull, left);
    if !Accepts(ts, "IS") {
      var negated := Accepts(ts, "NOT");
      var rest := if negated then ts[1..] else ts;
      if Accepts(rest, "IN") {
        MembershipProper(keywords, negated, left, rest[1..]);
      } else if Accepts(rest, "BETWEEN") {
        RangeProper(keywords, negated, left, rest[1..]);
      } else if !negated && ComparisonAt(ts).Some? {
        OperandProper(keywords, ts[1..]);
        var right := Operand(keywords, ts[1..]);
        if right.Ok? {
          ProperTwo(ComparisonAt(ts).value, left, right.result);
        }
      }
    }
  }

  lemma {:induction false} MembershipProper(keywords: bool, negated: bool, left: CheckExpression, ts: seq<Token>)
    requires NotsHaveOperand(left)
    ensures Proper(Membership(keywords, negated, left, ts))
    decreases |ts|, 0, 1
  {
    if Accepts(ts, "(") {
      OperandProper(keywords, ts[1..]);
      var value := Operand(keywords, ts[1..]);
      if value.Ok? {
        ProperSnoc([], value.result);
        assert [] + [value.result] == [value.result];
        MembersProper(keywords, [value.result], value.rest);
        var values := MembersTail(keywords, [value.result], value.rest);
        if values.Ok? {
          ProperNode(if negated then NotIn else In, left, values.result);
        }
      }
    }
  }

  lemma {:induction false} MembersProper(keywords: bool, values: seq<CheckExpression>, ts: seq<Token>)
    requires AllNotsHaveOperand(values)
    ensures var r := MembersTail(keywords, values, ts); r.Ok? ==> AllNotsHaveOperand(r.result)
    decreases |ts|, 0, 1
  {
    if Accepts(ts, ",") {
      OperandProper(keywords, ts[1..]);
      var value := Operand(keywords, ts[1..]);
      if value.Ok? {
        ProperSnoc(values, value.result);
        MembersProper(keywords, values + [value.result], value.rest);
      }
    }
  }

  lemma {:induction false} RangeProper(keywords: bool, negated: bool, left: CheckExpression, ts: seq<Token>)
    requires NotsHaveOperand(left)
    ensures Proper(Range(keywords, negated, left, ts))
    decreases |ts|, 0, 1
  {
    OperandProper(keywords, ts);
    var low := Operand(keywords, ts);
    if low.Ok? && Accepts(low.rest, "AND") {
      OperandProper(keywords, low.rest[1..]);
      var high := Operand(keywords, low.rest[1..]);
      if high.Ok? {
        ProperThree(Between, left, low.result, high.result);
        ProperOne(Not, Node(Between, [left, low.result, high.result]));
      }
    }
  }

  lemma {:induction false} OperandProper(keywords: bool, ts: seq<Token>)
    ensures Proper(Operand(keywords, ts))
    decreases |ts|, 0, 0
  {
    if Accepts(ts, "(") {
      ChainProper(keywords, Or, ts[1..]);
    }
  }

  /** Every tree the catalog reader returns has an operand under each NOT, so it can be normalized. */
  lemma ParsedIsProper(keywords: bool, ts: seq<Token>)
    requires ParseTokens(keywords, ts).Some?
    ensures NotsHaveOperand(ParseTokens(keywords, ts).value)
  {
    ChainProper(keywords, Or, ts);
  }

  ghost predicate AllProper(shapes: seq<CheckShape>) {
    forall i :: 0 <= i < |shapes| && shapes[i].expression.Some? ==> NotsHaveOperand(shapes[i].expression.value)
  }

  lemma {:induction false} ScannedAreProper(ts: seq<Token>, p: nat, depth: int)
    ensures var r := ScanChecks(ConditionReader(), ts, p, depth); r.Some? ==> AllProper(r.value)
    decreases |ts| - p
  {
    if p < |ts| {
      if ts[p] == Punctuation("(") {
        ScannedAreProper(ts, p + 1, depth + 1);
      } else if ts[p] == Punctuation(")") {
        ScannedAreProper(ts, p + 1, depth - 1);
      } else if depth == 1 && IsWord(ts[p], "CHECK") {
        if p + 1 < |ts| && ts[p + 1] == Punctuation("(") && ClosingAt(ts, p + 2, 1).Some? {
          var closing := ClosingAt(ts, p + 2, 1).value;
          ScannedAreProper(ts, closing + 1, depth);
          if ParseTokens(false, ts[p + 2..closing]).Some? {
            ParsedIsProper(false, ts[p + 2..closing]);
          }
        }
      } else {
        ScannedAreProper(ts, p + 1, depth);
      }
    }
  }

  /** So are the CHECKs read from any CREATE TABLE. */
  lemma ReadChecksAreProper(u: Alphabet, sql: string)
    requires SqliteChecks(u, sql).Some?
    ensures AllProper(SqliteChecks(u, sql).value)
  {
    ScannedAreProper(Lex(Reader(u, false), sql).value, 0, 0);
  }
}
