/** Normalization of CHECK trees: De Morgan, complements, double negation and AND/OR flattening. */
module CheckNormalize {
  import opened CheckTree

  // ----- the termination measure -----

  /** Doubling under NOT pays for the extra NOT nodes that a De Morgan rebuild creates. */
  function Weight(e: CheckExpression): (w: nat)
    ensures w >= 1
    decreases e, 1
  {
    var total := TotalWeight(e.arguments);
    if e.operator.Not? && e.arguments != [] then 2 * total else 1 + total
  }

  function TotalWeight(es: seq<CheckExpression>): (w: nat)
    ensures |es| <= w
    decreases es, 0
  {
    if es == [] then 0 else Weight(es[0]) + TotalWeight(es[1..])
  }

  lemma {:induction false} TotalWeightSingle(e: CheckExpression)
    ensures TotalWeight([e]) == Weight(e)
    ensures AllNotsHaveOperand([e]) <==> NotsHaveOperand(e)
  {
    assert [e][1..] == [];
  }

  lemma {:induction false} TotalWeightConcat(a: seq<CheckExpression>, b: seq<CheckExpression>)
    ensures TotalWeight(a + b) == TotalWeight(a) + TotalWeight(b)
    ensures AllNotsHaveOperand(a + b) <==> AllNotsHaveOperand(a) && AllNotsHaveOperand(b)
  {
    if a == [] {
      assert a + b == b;
    } else {
      assert (a + b)[1..] == a[1..] + b;
      TotalWeightConcat(a[1..], b);
    }
  }

  // ----- the rewriting rules -----

  predicate Complementable(op: Operator) {
    IsComparison(op) || op.IsNull? || op.IsNotNull? || op.In? || op.NotIn?
  }

  function Complement(op: Operator): Operator
    requires Complementable(op)
  {
    match op
    case Eq => Ne
    case Ne => Eq
    case Gt => Lte
    case Gte => Lt
    case Lt => Gte
    case Lte => Gt
    case IsNull => IsNotNull
    case IsNotNull => IsNull
    case In => NotIn
    case NotIn => In
  }

  predicate IsChain(op: Operator) {
    op.And? || op.Or?
  }

  function Dual(op: Operator): Operator
    requires IsChain(op)
  {
    if op.And? then Or else And
  }

  function Negation(e: CheckExpression): CheckExpression {
    Node(Not, [e])
  }

  function Negations(es: seq<CheckExpression>): (r: seq<CheckExpression>)
    ensures |r| == |es|
    ensures forall i :: 0 <= i < |es| ==> r[i] == Negation(es[i])
    ensures TotalWeight(r) == 2 * TotalWeight(es)
    ensures AllNotsHaveOperand(es) ==> AllNotsHaveOperand(r)
  {
    if es == [] then []
    else
      var first := Negation(es[0]);
      TotalWeightSingle(es[0]);
      [first] + Negations(es[1..])
  }

  /** The members a child contributes to an `op` chain: its own members when it is one too. */
  function Spliced(op: Operator, e: CheckExpression): seq<CheckExpression> {
    if e.operator == op then e.arguments else [e]
  }

  function Flatten(op: Operator, es: seq<CheckExpression>): (r: seq<CheckExpression>)
    requires IsChain(op)
    ensures TotalWeight(r) <= TotalWeight(es)
    ensures AllNotsHaveOperand(es) ==> AllNotsHaveOperand(r)
  {
    if es == [] then []
    else
      var head := Spliced(op, es[0]);
      var tail := Flatten(op, es[1..]);
      TotalWeightConcat(head, tail);
      TotalWeightSingle(es[0]);
      head + tail
  }

  function Normalize(e: CheckExpression): (r: CheckExpression)
    requires NotsHaveOperand(e)
    ensures Weight(r) <= Weight(e)
    ensures NotsHaveOperand(r)
    decreases Weight(e), 0
  {
    var arguments := NormalizeAll(e.arguments);
    if e.operator.Not? then
      var child := arguments[0];
      assert arguments == [child] + arguments[1..];
      if IsChain(child.operator) then
        Normalize(Node(Dual(child.operator), Negations(child.arguments)))
      else if Complementable(child.operator) then
        Node(Complement(child.operator), child.arguments)
      else if child.operator.Not? then
        child.arguments[0]
      else
        CheckExpression(e.operator, arguments, e.value)
    else if IsChain(e.operator) then
      CheckExpression(e.operator, Flatten(e.operator, arguments), e.value)
    else
      CheckExpression(e.operator, arguments, e.value)
  }

  function NormalizeAll(es: seq<CheckExpression>): (r: seq<CheckExpression>)
    requires AllNotsHaveOperand(es)
    ensures |r| == |es|
    ensures TotalWeight(r) <= TotalWeight(es)
    ensures AllNotsHaveOperand(r)
    decreases TotalWeight(es), 1
  {
    if es == [] then [] else [Normalize(es[0])] + NormalizeAll(es[1..])
  }

  // ----- the shape of the result -----

  /** Nothing is left for the normalizer to rewrite. */
  predicate IsNormal(e: CheckExpression)
    decreases e, 1
  {
    && AllNormal(e.arguments)
    && (e.operator.Not? ==>
          e.arguments != []
          && var child := e.arguments[0].operator;
          !IsChain(child) && !Complementable(child) && !child.Not?)
    && (IsChain(e.operator) ==>
          forall i :: 0 <= i < |e.arguments| ==> e.arguments[i].operator != e.operator)
  }

  predicate AllNormal(es: seq<CheckExpression>)
    decreases es, 0
  {
    es == [] || (IsNormal(es[0]) && AllNormal(es[1..]))
  }

  lemma {:induction false} AllNormalSingle(e: CheckExpression)
    ensures AllNormal([e]) <==> IsNormal(e)
  {
    assert [e][1..] == [];
  }

  lemma {:induction false} AllNormalAt(es: seq<CheckExpression>, i: nat)
    requires AllNormal(es) && i < |es|
    ensures IsNormal(es[i])
  {
    if i > 0 {
      AllNormalAt(es[1..], i - 1);
    }
  }

  lemma {:induction false} AllNormalConcat(a: seq<CheckExpression>, b: seq<CheckExpression>)
    requires AllNormal(a) && AllNormal(b)
    ensures AllNormal(a + b)
  {
    if a == [] {
      assert a + b == b;
    } else {
      assert (a + b)[1..] == a[1..] + b;
      AllNormalConcat(a[1..], b);
    }
  }

  /** Splicing normal children leaves no `op` node directly under the chain. */
  lemma {:induction false} FlattenNormal(op: Operator, es: seq<CheckExpression>)
    requires IsChain(op) && AllNormal(es)
    ensures AllNormal(Flatten(op, es))
    ensures forall i :: 0 <= i < |Flatten(op, es)| ==> Flatten(op, es)[i].operator != op
  {
    if es != [] {
      FlattenNormal(op, es[1..]);
      var head := Spliced(op, es[0]);
      AllNormalSingle(es[0]);
      AllNormalConcat(head, Flatten(op, es[1..]));
    }
  }

  /** Normalizing always reaches a normal form: NOT only over nodes with no complement, no AND
      directly under AND and no OR directly under OR. */
  lemma {:induction false} NormalizeIsNormal(e: CheckExpression)
    requires NotsHaveOperand(e)
    ensures IsNormal(Normalize(e))
    decreases Weight(e), 0
  {
    NormalizeAllIsNormal(e.arguments);
    var arguments := NormalizeAll(e.arguments);
    if e.operator.Not? {
      var child := arguments[0];
      assert arguments == [child] + arguments[1..];
      if IsChain(child.operator) {
        NormalizeIsNormal(Node(Dual(child.operator), Negations(child.arguments)));
      } else if child.operator.Not? {
        AllNormalAt(child.arguments, 0);
      }
    } else if IsChain(e.operator) {
      FlattenNormal(e.operator, arguments);
    }
  }

  lemma {:induction false} NormalizeAllIsNormal(es: seq<CheckExpression>)
    requires AllNotsHaveOperand(es)
    ensures AllNormal(NormalizeAll(es))
    decreases TotalWeight(es), 1
  {
    if es != [] {
      NormalizeIsNormal(es[0]);
      NormalizeAllIsNormal(es[1..]);
    }
  }

  lemma {:induction false} FlattenFixpoint(op: Operator, es: seq<CheckExpression>)
    requires IsChain(op)
    requires forall i :: 0 <= i < |es| ==> es[i].operator != op
    ensures Flatten(op, es) == es
  {
    if es != [] {
      FlattenFixpoint(op, es[1..]);
    }
  }

  /** A normal tree is left exactly as it is. */
  lemma {:induction false} NormalFixpoint(e: CheckExpression)
    requires IsNormal(e)
    ensures NotsHaveOperand(e)
    ensures Normalize(e) == e
    decreases e, 1
  {
    AllNormalFixpoint(e.arguments);
    if IsChain(e.operator) {
      FlattenFixpoint(e.operator, e.arguments);
    }
  }

  lemma {:induction false} AllNormalFixpoint(es: seq<CheckExpression>)
    requires AllNormal(es)
    ensures AllNotsHaveOperand(es)
    ensures NormalizeAll(es) == es
    decreases es, 0
  {
    if es != [] {
      NormalFixpoint(es[0]);
      AllNormalFixpoint(es[1..]);
    }
  }

  /** Normalizing twice is normalizing once. */
  lemma {:induction false} NormalizeIdempotent(e: CheckExpression)
    requires NotsHaveOperand(e)
    ensures Normalize(Normalize(e)) == Normalize(e)
  {
    NormalizeIsNormal(e);
    NormalFixpoint(Normalize(e));
  }
}
