/** The normalizer on every tree, also one the binder and the catalog reader never build: it raises on
    a NOT whose operand normalizes to a NOT without an operand, and on nothing else. */
module CheckTotal {
  import opened TextCodec
  import opened CheckTree
  import opened CheckNormalize

  /** None where the source indexes an empty tuple of arguments. */
  function NormalizeCheck(e: CheckExpression): (r: Option<CheckExpression>)
    ensures r.Some? ==> Weight(r.value) <= Weight(e)
    decreases Weight(e), 0
  {
    match NormalizeChecks(e.arguments)
    case None => None
    case Some(arguments) =>
      if e.operator.Not? && arguments != [] then
        var child := arguments[0];
        assert arguments == [child] + arguments[1..];
        if IsChain(child.operator) then
          NormalizeCheck(Node(Dual(child.operator), Negations(child.arguments)))
        else if Complementable(child.operator) then
          Some(Node(Complement(child.operator), child.arguments))
        else if child.operator.Not? then
          if child.arguments == [] then None else Some(child.arguments[0])
        else
          Some(CheckExpression(e.operator, arguments, e.value))
      else if IsChain(e.operator) then
        Some(CheckExpression(e.operator, Flatten(e.operator, arguments), e.value))
      else
        Some(CheckExpression(e.operator, arguments, e.value))
  }

  function NormalizeChecks(es: seq<CheckExpression>): (r: Option<seq<CheckExpression>>)
    ensures r.Some? ==> |r.value| == |es| && TotalWeight(r.value) <= TotalWeight(es)
    decreases TotalWeight(es), 1
  {
    if es == [] then Some([])
    else
      match (NormalizeCheck(es[0]), NormalizeChecks(es[1..]))
      case (Some(first), Some(rest)) => Some([first] + rest)
      case _ => None
  }

  /** Where every NOT has an operand, nothing is raised. */
  lemma {:induction false} NormalizeCheckAgrees(e: CheckExpression)
    requires NotsHaveOperand(e)
    ensures NormalizeCheck(e) == Some(Normalize(e))
    decreases Weight(e), 0
  {
    NormalizeChecksAgree(e.arguments);
    var arguments := NormalizeAll(e.arguments);
    if e.operator.Not? && IsChain(arguments[0].operator) {
      assert arguments == [arguments[0]] + arguments[1..];
      NormalizeCheckAgrees(Node(Dual(arguments[0].operator), Negations(arguments[0].arguments)));
    }
  }

  lemma {:induction false} NormalizeChecksAgree(es: seq<CheckExpression>)
    requires AllNotsHaveOperand(es)
    ensures NormalizeChecks(es) == Some(NormalizeAll(es))
    decreases TotalWeight(es), 1
  {
    if es != [] {
      NormalizeCheckAgrees(es[0]);
      NormalizeChecksAgree(es[1..]);
    }
  }

  // ----- which trees raise -----

  /** Negating the tree would negate a NOT without an operand: it is one, or a chain holding one. */
  predicate Exposes(e: CheckExpression)
    decreases e, 1
  {
    (e.operator.Not? && e.arguments == []) || (IsChain(e.operator) && AnyExposes(e.arguments))
  }

  predicate AnyExposes(es: seq<CheckExpression>)
    decreases es, 0
  {
    es != [] && (Exposes(es[0]) || AnyExposes(es[1..]))
  }

  /** Somewhere in the tree a NOT stands over such an operand. */
  predicate Raises(e: CheckExpression)
    decreases e, 1
  {
    AnyRaises(e.arguments) || (e.operator.Not? && e.arguments != [] && Exposes(e.arguments[0]))
  }

  predicate AnyRaises(es: seq<CheckExpression>)
    decreases es, 0
  {
    es != [] && (Raises(es[0]) || AnyRaises(es[1..]))
  }

  /** A normalized tree: every NOT with an operand stands over a node nothing can be done with. */
  predicate Settled(e: CheckExpression)
    decreases e, 1
  {
    && AllSettled(e.arguments)
    && (e.operator.Not? && e.arguments != [] ==>
          var child := e.arguments[0].operator;
          !IsChain(child) && !Complementable(child) && !child.Not?)
  }

  predicate AllSettled(es: seq<CheckExpression>)
    decreases es, 0
  {
    es == [] || (Settled(es[0]) && AllSettled(es[1..]))
  }

  lemma {:induction false} SettledOperand(e: CheckExpression)
    requires Settled(e) && e.arguments != []
    ensures Settled(e.arguments[0])
  {
    assert AllSettled(e.arguments);
  }

  lemma {:induction false} SettledNeverRaises(e: CheckExpression)
    requires Settled(e)
    ensures !Raises(e)
    decreases e, 1
  {
    AllSettledNeverRaise(e.arguments);
  }

  lemma {:induction false} AllSettledNeverRaise(es: seq<CheckExpression>)
    requires AllSettled(es)
    ensures !AnyRaises(es)
    decreases es, 0
  {
    if es != [] {
      SettledNeverRaises(es[0]);
      AllSettledNeverRaise(es[1..]);
    }
  }

  lemma {:induction false} SettledConcat(a: seq<CheckExpression>, b: seq<CheckExpression>)
    ensures AllSettled(a + b) <==> AllSettled(a) && AllSettled(b)
    ensures AnyExposes(a + b) <==> AnyExposes(a) || AnyExposes(b)
  {
    if a == [] {
      assert a + b == b;
    } else {
      assert (a + b)[1..] == a[1..] + b;
      SettledConcat(a[1..], b);
    }
  }

  lemma {:induction false} SettledSpliced(op: Operator, e: CheckExpression)
    requires IsChain(op) && Settled(e)
    ensures AllSettled(Spliced(op, e)) && (AnyExposes(Spliced(op, e)) <==> Exposes(e))
  {
    assert [e][1..] == [];
  }

  lemma {:induction false} FlattenSettled(op: Operator, es: seq<CheckExpression>)
    requires IsChain(op) && AllSettled(es)
    ensures AllSettled(Flatten(op, es)) && (AnyExposes(Flatten(op, es)) <==> AnyExposes(es))
  {
    if es != [] {
      SettledSpliced(op, es[0]);
      FlattenSettled(op, es[1..]);
      SettledConcat(Spliced(op, es[0]), Flatten(op, es[1..]));
    }
  }

  lemma {:induction false} NegationRaises(e: CheckExpression)
    ensures !Exposes(Negation(e)) && (Raises(Negation(e)) <==> Raises(e) || Exposes(e))
  {
    assert [e][1..] == [];
    assert AnyRaises([e]) <==> Raises(e);
  }

  /** Negating settled members raises exactly when one of them exposes, and hides whatever it can. */
  lemma {:induction false} NegationsRaise(es: seq<CheckExpression>)
    requires AllSettled(es)
    ensures !AnyExposes(Negations(es)) && (AnyRaises(Negations(es)) <==> AnyExposes(es))
  {
    if es != [] {
      NegationRaises(es[0]);
      SettledNeverRaises(es[0]);
      NegationsRaise(es[1..]);
      assert Negations(es)[1..] == Negations(es[1..]);
    }
  }

  ghost predicate Exact(e: CheckExpression) {
    var r := NormalizeCheck(e);
    (r.None? <==> Raises(e)) && (r.Some? ==> Settled(r.value) && (Exposes(r.value) <==> Exposes(e)))
  }

  /** A NOT whose normalized operand is a chain is what its De Morgan rebuild is. */
  lemma {:induction false} ChainNegated(e: CheckExpression, arguments: seq<CheckExpression>)
    requires e.operator.Not? && e.arguments != [] && NormalizeChecks(e.arguments) == Some(arguments)
    requires AllSettled(arguments) && !AnyRaises(e.arguments)
    requires Exposes(arguments[0]) <==> Exposes(e.arguments[0])
    requires IsChain(arguments[0].operator)
    requires Exact(Node(Dual(arguments[0].operator), Negations(arguments[0].arguments)))
    ensures Exact(e)
  {
    NegationsRaise(arguments[0].arguments);
  }

  lemma {:induction false} OtherNegated(e: CheckExpression, arguments: seq<CheckExpression>)
    requires e.operator.Not? && e.arguments != [] && NormalizeChecks(e.arguments) == Some(arguments)
    requires AllSettled(arguments) && !AnyRaises(e.arguments)
    requires Exposes(arguments[0]) <==> Exposes(e.arguments[0])
    requires !IsChain(arguments[0].operator)
    ensures Exact(e)
  {
    var child := arguments[0];
    assert Settled(child);
    if child.operator.Not? && child.arguments != [] {
      SettledOperand(child);
    }
  }

  lemma {:induction false} PositiveExact(e: CheckExpression, arguments: seq<CheckExpression>)
    requires (!e.operator.Not? || e.arguments == []) && NormalizeChecks(e.arguments) == Some(arguments)
    requires AllSettled(arguments) && !AnyRaises(e.arguments)
    requires AnyExposes(arguments) <==> AnyExposes(e.arguments)
    ensures Exact(e)
  {
    if IsChain(e.operator) {
      FlattenSettled(e.operator, arguments);
    }
  }

  /** Normalizing raises exactly on the trees that can be seen to raise; otherwise the result is
      settled, and exposes an empty NOT exactly when the tree does. */
  lemma {:induction false} RaisesExactly(e: CheckExpression)
    ensures NormalizeCheck(e).None? <==> Raises(e)
    ensures Exact(e)
    decreases Weight(e), 0
  {
    AllRaiseExactly(e.arguments);
    if NormalizeChecks(e.arguments).Some? {
      var arguments := NormalizeChecks(e.arguments).value;
      if !e.operator.Not? || arguments == [] {
        PositiveExact(e, arguments);
      } else if IsChain(arguments[0].operator) {
        assert arguments == [arguments[0]] + arguments[1..];
        RaisesExactly(Node(Dual(arguments[0].operator), Negations(arguments[0].arguments)));
        ChainNegated(e, arguments);
      } else {
        OtherNegated(e, arguments);
      }
    }
  }

  lemma {:induction false} AllRaiseExactly(es: seq<CheckExpression>)
    ensures NormalizeChecks(es).None? <==> AnyRaises(es)
    ensures NormalizeChecks(es).Some? ==>
              var r := NormalizeChecks(es).value;
              AllSettled(r) && (AnyExposes(r) <==> AnyExposes(es)) && (es != [] ==> (Exposes(r[0]) <==> Exposes(es[0])))
    decreases TotalWeight(es), 1
  {
    if es != [] {
      RaisesExactly(es[0]);
      AllRaiseExactly(es[1..]);
    }
  }
}
