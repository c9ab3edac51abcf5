/** The three-valued meaning of CHECK trees, and what normalization preserves of it. */
module CheckMeaning {
  import TextCodec
  import opened ThreeValued
  import opened CheckTree
  import opened CheckNormalize

  datatype Datum = Null | TextDatum(text: string) | IntegerDatum(number: int)

  datatype Order = Below | Same | Above

  /** One row together with the server's own collation and truth test, both left arbitrary. */
  datatype Setting = Setting(
    row: string -> Datum,
    compare: (Datum, Datum) -> Order,
    holds: Datum -> bool)

  function Compared(s: Setting, op: Operator, a: Datum, b: Datum): Logic
    requires IsComparison(op)
  {
    if a.Null? || b.Null? then Unknown
    else
      var order := s.compare(a, b);
      match op
      case Eq => Known(order.Same?)
      case Ne => Known(!order.Same?)
      case Gt => Known(order.Above?)
      case Gte => Known(!order.Below?)
      case Lt => Known(order.Below?)
      case Lte => Known(!order.Above?)
  }

  function TruthDatum(t: Logic): Datum {
    match t
    case True => IntegerDatum(1)
    case False => IntegerDatum(0)
    case Unknown => Null
  }

  function LeafDatum(s: Setting, e: CheckExpression): Datum {
    match e.value
    case NoValue => Null
    case Integer(n) => IntegerDatum(n)
    case Text(t) => if e.operator.Column? then s.row(t) else TextDatum(t)
  }

  /** The value an expression has where SQL reads an operand. */
  function ValueOf(s: Setting, e: CheckExpression): Datum
    decreases e, 2
  {
    if IsLeaf(e) then LeafDatum(s, e) else TruthDatum(TruthOf(s, e))
  }

  function Operand(s: Setting, es: seq<CheckExpression>, i: nat): Datum
    decreases es, 0
  {
    if i < |es| then ValueOf(s, es[i]) else Null
  }

  /** The truth value an expression has where SQL reads a condition. */
  function TruthOf(s: Setting, e: CheckExpression): Logic
    decreases e, 1
  {
    var args := e.arguments;
    match e.operator
    case Column => var d := LeafDatum(s, e); if d.Null? then Unknown else Known(s.holds(d))
    case Literal => var d := LeafDatum(s, e); if d.Null? then Unknown else Known(s.holds(d))
    case Not => if args == [] then Unknown else Not3(TruthOf(s, args[0]))
    case And => Every(s, args)
    case Or => Some(s, args)
    case IsNull => Known(Operand(s, args, 0).Null?)
    case IsNotNull => Known(!Operand(s, args, 0).Null?)
    case In => Member(s, Operand(s, args, 0), args, 1)
    case NotIn => Not3(Member(s, Operand(s, args, 0), args, 1))
    case Between =>
      And3(Compared(s, Gte, Operand(s, args, 0), Operand(s, args, 1)),
           Compared(s, Lte, Operand(s, args, 0), Operand(s, args, 2)))
    case Eq => Compared(s, Eq, Operand(s, args, 0), Operand(s, args, 1))
    case Ne => Compared(s, Ne, Operand(s, args, 0), Operand(s, args, 1))
    case Gt => Compared(s, Gt, Operand(s, args, 0), Operand(s, args, 1))
    case Gte => Compared(s, Gte, Operand(s, args, 0), Operand(s, args, 1))
    case Lt => Compared(s, Lt, Operand(s, args, 0), Operand(s, args, 1))
    case Lte => Compared(s, Lte, Operand(s, args, 0), Operand(s, args, 1))
  }

  function Every(s: Setting, es: seq<CheckExpression>): Logic
    decreases es, 0
  {
    if es == [] then True else And3(TruthOf(s, es[0]), Every(s, es[1..]))
  }

  function Some(s: Setting, es: seq<CheckExpression>): Logic
    decreases es, 0
  {
    if es == [] then False else Or3(TruthOf(s, es[0]), Some(s, es[1..]))
  }

  /** SQL membership of `d` among the operands from position `i` on. */
  function Member(s: Setting, d: Datum, es: seq<CheckExpression>, i: nat): Logic
    decreases es, 1, |es| - i
  {
    if i >= |es| then False
    else Or3(Compared(s, Eq, d, Operand(s, es, i)), Member(s, d, es, i + 1))
  }

  // ----- where normalization is allowed to look inside an operand -----

  predicate ReadsOperands(op: Operator) {
    IsComparison(op) || op.IsNull? || op.IsNotNull? || op.In? || op.NotIn? || op.Between?
  }

  /** What is left under an operand's leading NOTs, and how many there are. */
  function Core(e: CheckExpression): CheckExpression {
    if e.operator.Not? && e.arguments != [] then Core(e.arguments[0]) else e
  }

  function NotDepth(e: CheckExpression): nat {
    if e.operator.Not? && e.arguments != [] then 1 + NotDepth(e.arguments[0]) else 0
  }

  /** `NOT NOT x` and its like: normalization replaces a truth value by a bare column or literal. */
  predicate Collapses(e: CheckExpression) {
    NotDepth(e) > 0 && NotDepth(e) % 2 == 0 && IsLeaf(Core(e)) && !Core(e).value.NoValue?
  }

  /** No operand of a comparison collapses. */
  predicate OperandsStay(e: CheckExpression)
    decreases e, 1
  {
    && AllOperandsStay(e.arguments)
    && (ReadsOperands(e.operator) ==> NoneCollapse(e.arguments))
  }

  predicate AllOperandsStay(es: seq<CheckExpression>)
    decreases es, 0
  {
    es == [] || (OperandsStay(es[0]) && AllOperandsStay(es[1..]))
  }

  predicate NoneCollapse(es: seq<CheckExpression>) {
    es == [] || (!Collapses(es[0]) && NoneCollapse(es[1..]))
  }

  /** What an even or odd number of NOTs over a core becomes. */
  predicate EndsAs(even: bool, core: CheckExpression, r: CheckExpression) {
    if !IsLeaf(core) then !IsLeaf(r) && (r.operator.Not? && r.arguments != [] ==> !IsLeaf(r.arguments[0]))
    else if even then r.operator == core.operator && r.value == core.value
    else
      && r.operator.Not? && r.arguments != []
      && r.arguments[0].operator == core.operator && r.arguments[0].value == core.value
  }

  /** Where leading NOTs over a leaf end up. */
  predicate TowerEnds(e: CheckExpression, r: CheckExpression) {
    EndsAs(NotDepth(e) % 2 == 0, Core(e), r)
  }

  /** What normalization makes of a NOT over `child`. */
  predicate NegatedAs(child: CheckExpression, r: CheckExpression) {
    || (IsChain(child.operator) && IsChain(r.operator))
    || (Complementable(child.operator) && Complementable(r.operator))
    || (child.operator.Not? && child.arguments != [] && r == child.arguments[0] && !r.operator.Not?)
    || (!IsChain(child.operator) && !Complementable(child.operator) && !child.operator.Not?
        && r.operator.Not? && r.arguments != [] && r.arguments[0] == child)
  }

  lemma NegatedEnds(even: bool, core: CheckExpression, child: CheckExpression, r: CheckExpression)
    requires EndsAs(even, core, child) && NegatedAs(child, r)
    ensures EndsAs(!even, core, r)
  {
  }

  lemma {:induction false} NormalizedNot(e: CheckExpression, child: CheckExpression)
    requires NotsHaveOperand(e) && e.operator.Not? && NormalizeAll(e.arguments)[0] == child && IsNormal(child)
    ensures NegatedAs(child, Normalize(e))
  {
    if IsChain(child.operator) {
      RebuiltOperator(e, child);
    }
  }

  lemma {:induction false} OneMoreNot(e: CheckExpression)
    requires e.operator.Not? && e.arguments != []
    ensures Core(e) == Core(e.arguments[0]) && NotDepth(e) == 1 + NotDepth(e.arguments[0])
  {
  }

  lemma {:induction false} RebuiltOperator(e: CheckExpression, child: CheckExpression)
    requires NotsHaveOperand(e) && e.operator.Not? && NormalizeAll(e.arguments)[0] == child
    requires IsChain(child.operator)
    ensures Normalize(e).operator == Dual(child.operator)
  {
  }

  lemma {:induction false} NormalizedTower(e: CheckExpression)
    requires NotsHaveOperand(e)
    ensures TowerEnds(e, Normalize(e))
    decreases e
  {
    if e.operator.Not? {
      NormalizedTower(e.arguments[0]);
      NormalizeIsNormal(e.arguments[0]);
      OneMoreNot(e);
      var child := Normalize(e.arguments[0]);
      NormalizedNot(e, child);
      NegatedEnds(NotDepth(e.arguments[0]) % 2 == 0, Core(e), child, Normalize(e));
    }
  }

  lemma {:induction false} NormalOperandsStay(e: CheckExpression)
    requires IsNormal(e)
    ensures NotsHaveOperand(e) && OperandsStay(e)
    decreases e, 1
  {
    NormalFixpoint(e);
    AllNormalOperandsStay(e.arguments);
  }

  lemma {:induction false} AllNormalOperandsStay(es: seq<CheckExpression>)
    requires AllNormal(es)
    ensures AllNotsHaveOperand(es) && AllOperandsStay(es) && NoneCollapse(es)
    decreases es, 0
  {
    AllNormalFixpoint(es);
    if es != [] {
      NormalOperandsStay(es[0]);
      assert es[0].operator.Not? ==> NotDepth(es[0].arguments[0]) == 0;
      AllNormalOperandsStay(es[1..]);
    }
  }

  lemma {:induction false} NegationsStay(es: seq<CheckExpression>)
    requires AllNormal(es)
    ensures AllNotsHaveOperand(es) && AllOperandsStay(Negations(es))
  {
    AllNormalFixpoint(es);
    if es != [] {
      NormalOperandsStay(es[0]);
      var first := Negation(es[0]);
      assert first.arguments[1..] == [];
      assert OperandsStay(first);
      NegationsStay(es[1..]);
      assert Negations(es)[1..] == Negations(es[1..]);
    }
  }

  // ----- algebra of the connectives -----

  lemma {:induction false} EveryConcat(s: Setting, a: seq<CheckExpression>, b: seq<CheckExpression>)
    ensures Every(s, a + b) == And3(Every(s, a), Every(s, b))
    ensures Some(s, a + b) == Or3(Some(s, a), Some(s, b))
  {
    if a == [] {
      assert a + b == b;
    } else {
      assert (a + b)[1..] == a[1..] + b;
      EveryConcat(s, a[1..], b);
    }
  }

  lemma {:induction false} EverySingle(s: Setting, e: CheckExpression)
    ensures Every(s, [e]) == TruthOf(s, e) == Some(s, [e])
  {
    assert [e][1..] == [];
  }

  lemma {:induction false} FlattenKeepsTruth(s: Setting, op: Operator, es: seq<CheckExpression>)
    requires IsChain(op)
    ensures op.And? ==> Every(s, Flatten(op, es)) == Every(s, es)
    ensures op.Or? ==> Some(s, Flatten(op, es)) == Some(s, es)
  {
    if es != [] {
      FlattenKeepsTruth(s, op, es[1..]);
      EveryConcat(s, Spliced(op, es[0]), Flatten(op, es[1..]));
      EverySingle(s, es[0]);
    }
  }

  lemma {:induction false} EveryMore(s: Setting, e: CheckExpression, es: seq<CheckExpression>)
    ensures Every(s, [e] + es) == And3(TruthOf(s, e), Every(s, es))
    ensures Some(s, [e] + es) == Or3(TruthOf(s, e), Some(s, es))
  {
    assert ([e] + es)[1..] == es;
  }

  lemma {:induction false} NegationsMore(es: seq<CheckExpression>)
    requires es != []
    ensures [es[0]] + es[1..] == es && Negations(es) == [Negation(es[0])] + Negations(es[1..])
  {
  }

  lemma {:induction false} NegationTruth(s: Setting, e: CheckExpression)
    ensures TruthOf(s, Negation(e)) == Not3(TruthOf(s, e))
  {
  }

  /** De Morgan, over a chain of any length. */
  lemma {:induction false} DeMorgan(s: Setting, es: seq<CheckExpression>)
    ensures Some(s, Negations(es)) == Not3(Every(s, es))
    ensures Every(s, Negations(es)) == Not3(Some(s, es))
  {
    if es != [] {
      var rest := es[1..];
      DeMorgan(s, rest);
      NegationTruth(s, es[0]);
      EveryMore(s, es[0], rest);
      EveryMore(s, Negation(es[0]), Negations(rest));
      NegationsMore(es);
    }
  }

  // ----- normalization preserves meaning -----

  /** The operands read by a comparison keep their values. */
  predicate SameOperands(s: Setting, a: seq<CheckExpression>, b: seq<CheckExpression>) {
    |a| == |b| && forall i: nat :: i < |a| ==> Operand(s, a, i) == Operand(s, b, i)
  }

  lemma {:induction false} MemberSame(s: Setting, d: Datum, a: seq<CheckExpression>, b: seq<CheckExpression>, i: nat)
    requires SameOperands(s, a, b)
    ensures Member(s, d, a, i) == Member(s, d, b, i)
    decreases |a| - i
  {
    if i < |a| {
      MemberSame(s, d, a, b, i + 1);
    }
  }

  lemma {:induction false} ReadingSame(s: Setting, op: Operator, v: Value, w: Value,
                    a: seq<CheckExpression>, b: seq<CheckExpression>)
    requires ReadsOperands(op) && SameOperands(s, a, b)
    ensures TruthOf(s, CheckExpression(op, a, v)) == TruthOf(s, CheckExpression(op, b, w))
  {
    assert Operand(s, a, 0) == Operand(s, b, 0);
    assert Operand(s, a, 1) == Operand(s, b, 1);
    assert Operand(s, a, 2) == Operand(s, b, 2);
    MemberSame(s, Operand(s, a, 0), a, b, 1);
  }

  lemma {:induction false} ComplementNegates(s: Setting, op: Operator, v: Value, w: Value, args: seq<CheckExpression>)
    requires Complementable(op)
    ensures TruthOf(s, CheckExpression(Complement(op), args, v))
            == Not3(TruthOf(s, CheckExpression(op, args, w)))
  {
  }

  lemma {:induction false} RebuildNegates(s: Setting, child: CheckExpression)
    requires IsChain(child.operator)
    ensures TruthOf(s, Node(Dual(child.operator), Negations(child.arguments)))
            == Not3(TruthOf(s, child))
  {
    DeMorgan(s, child.arguments);
  }

  /** The rules for a NOT whose normalized operand is not a chain. */
  lemma {:induction false} NegationRules(s: Setting, e: CheckExpression, child: CheckExpression)
    requires NotsHaveOperand(e) && e.operator.Not? && NormalizeAll(e.arguments)[0] == child
    requires !IsChain(child.operator)
    ensures TruthOf(s, Normalize(e)) == Not3(TruthOf(s, child))
  {
    if Complementable(child.operator) {
      ComplementNegates(s, child.operator, NoValue, child.value, child.arguments);
    }
  }

  lemma {:induction false} NotTruth(s: Setting, e: CheckExpression)
    requires e.operator.Not? && e.arguments != []
    ensures TruthOf(s, e) == Not3(TruthOf(s, e.arguments[0]))
  {
  }

  lemma {:induction false} ChainRule(s: Setting, e: CheckExpression)
    requires NotsHaveOperand(e) && IsChain(e.operator)
    requires Every(s, NormalizeAll(e.arguments)) == Every(s, e.arguments)
    requires Some(s, NormalizeAll(e.arguments)) == Some(s, e.arguments)
    ensures TruthOf(s, Normalize(e)) == TruthOf(s, e)
  {
    FlattenKeepsTruth(s, e.operator, NormalizeAll(e.arguments));
  }

  lemma {:induction false} ReadingRule(s: Setting, e: CheckExpression)
    requires NotsHaveOperand(e) && ReadsOperands(e.operator)
    requires SameOperands(s, NormalizeAll(e.arguments), e.arguments)
    ensures TruthOf(s, Normalize(e)) == TruthOf(s, e)
  {
    var arguments := NormalizeAll(e.arguments);
    assert Normalize(e) == CheckExpression(e.operator, arguments, e.value);
    ReadingSame(s, e.operator, e.value, e.value, arguments, e.arguments);
    assert e == CheckExpression(e.operator, e.arguments, e.value);
  }

  /** Every rule but NOT: the normalized arguments stand for the original ones. */
  lemma {:induction false} PositiveRules(s: Setting, e: CheckExpression)
    requires NotsHaveOperand(e) && OperandsStay(e) && !e.operator.Not?
    requires
      var arguments := NormalizeAll(e.arguments);
      && Every(s, arguments) == Every(s, e.arguments)
      && Some(s, arguments) == Some(s, e.arguments)
      && (NoneCollapse(e.arguments) ==> SameOperands(s, arguments, e.arguments))
    ensures TruthOf(s, Normalize(e)) == TruthOf(s, e)
  {
    if IsChain(e.operator) {
      ChainRule(s, e);
    } else if ReadsOperands(e.operator) {
      ReadingRule(s, e);
    }
  }

  /** A NOT over a chain, given that its De Morgan rebuild keeps its truth. */
  lemma {:induction false} RebuiltRule(s: Setting, e: CheckExpression, child: CheckExpression)
    requires NotsHaveOperand(e) && e.operator.Not? && NormalizeAll(e.arguments)[0] == child
    requires IsChain(child.operator)
    requires
      var rebuilt := Node(Dual(child.operator), Negations(child.arguments));
      NotsHaveOperand(rebuilt) && TruthOf(s, Normalize(rebuilt)) == TruthOf(s, rebuilt)
    ensures TruthOf(s, Normalize(e)) == Not3(TruthOf(s, child))
  {
    RebuildNegates(s, child);
  }

  lemma {:induction false} RebuiltStays(e: CheckExpression, child: CheckExpression)
    requires NotsHaveOperand(e) && e.operator.Not? && NormalizeAll(e.arguments)[0] == child
    requires IsChain(child.operator)
    ensures
      var rebuilt := Node(Dual(child.operator), Negations(child.arguments));
      NotsHaveOperand(rebuilt) && OperandsStay(rebuilt) && Weight(rebuilt) < Weight(e)
  {
    var arguments := NormalizeAll(e.arguments);
    assert arguments == [child] + arguments[1..];
    NormalizeAllIsNormal(e.arguments);
    NegationsStay(child.arguments);
  }

  /** Normalizing a CHECK keeps its three-valued truth on every row, whatever the collation. */
  lemma {:induction false} NormalizeKeepsTruth(s: Setting, e: CheckExpression)
    requires NotsHaveOperand(e) && OperandsStay(e)
    ensures TruthOf(s, Normalize(e)) == TruthOf(s, e)
    decreases Weight(e), 0
  {
    NormalizeAllKeepsTruth(s, e.arguments);
    if e.operator.Not? {
      NotTruth(s, e);
      var arguments := NormalizeAll(e.arguments);
      var child := arguments[0];
      if IsChain(child.operator) {
        RebuiltStays(e, child);
        NormalizeKeepsTruth(s, Node(Dual(child.operator), Negations(child.arguments)));
        RebuiltRule(s, e, child);
      } else {
        NegationRules(s, e, child);
      }
    } else {
      PositiveRules(s, e);
    }
  }

  lemma {:induction false} NormalizeAllKeepsTruth(s: Setting, es: seq<CheckExpression>)
    requires AllNotsHaveOperand(es) && AllOperandsStay(es)
    ensures Every(s, NormalizeAll(es)) == Every(s, es)
    ensures Some(s, NormalizeAll(es)) == Some(s, es)
    ensures es != [] ==> TruthOf(s, NormalizeAll(es)[0]) == TruthOf(s, es[0])
    ensures NoneCollapse(es) ==> SameOperands(s, NormalizeAll(es), es)
    decreases TotalWeight(es), 1
  {
    if es != [] {
      NormalizeKeepsTruth(s, es[0]);
      NormalizeAllKeepsTruth(s, es[1..]);
      var r := NormalizeAll(es);
      assert r[1..] == NormalizeAll(es[1..]);
      if NoneCollapse(es) {
        OperandKept(s, es[0]);
        forall i: nat | i < |es| ensures Operand(s, r, i) == Operand(s, es, i) {
          if i > 0 {
            assert Operand(s, r[1..], i - 1) == Operand(s, es[1..], i - 1);
          }
        }
      }
    }
  }

  lemma {:induction false} OperandKept(s: Setting, e: CheckExpression)
    requires NotsHaveOperand(e) && !Collapses(e)
    requires TruthOf(s, Normalize(e)) == TruthOf(s, e)
    ensures ValueOf(s, Normalize(e)) == ValueOf(s, e)
  {
    NormalizedTower(e);
    if NotDepth(e) > 0 && NotDepth(e) % 2 == 0 && IsLeaf(Core(e)) {
      assert TruthOf(s, Normalize(e)).Unknown?;
    }
  }

  /** A "matched" CHECK or partial-index verdict: the normalized trees are equal. */
  predicate Matched(expected: CheckExpression, actual: CheckExpression)
    requires NotsHaveOperand(expected) && NotsHaveOperand(actual)
  {
    Normalize(expected) == Normalize(actual)
  }

  /** So two matched conditions accept, reject and leave undecided exactly the same rows. */
  lemma {:induction false} MatchedMeansEqual(s: Setting, expected: CheckExpression, actual: CheckExpression)
    requires NotsHaveOperand(expected) && OperandsStay(expected)
    requires NotsHaveOperand(actual) && OperandsStay(actual)
    requires Matched(expected, actual)
    ensures TruthOf(s, expected) == TruthOf(s, actual)
  {
    NormalizeKeepsTruth(s, expected);
    NormalizeKeepsTruth(s, actual);
  }

  /** The condition on operands is exact: an operand keeps its value in every setting if and only
      if it does not collapse. */
  lemma {:induction false} OperandKeptExactly(e: CheckExpression)
    requires NotsHaveOperand(e) && OperandsStay(e)
    ensures (forall s :: ValueOf(s, Normalize(e)) == ValueOf(s, e)) <==> !Collapses(e)
  {
    if Collapses(e) {
      var s := Unfaithful();
      NormalizedTower(e);
      assert ValueOf(s, Normalize(e)) == LeafDatum(s, Core(e));
      assert ValueOf(s, e) == TruthDatum(TruthOf(s, e));
      TowerTruth(s, e);
    } else {
      forall s ensures ValueOf(s, Normalize(e)) == ValueOf(s, e) {
        NormalizeKeepsTruth(s, e);
        OperandKept(s, e);
      }
    }
  }

  /** A setting whose truth test does not return the leaf itself. */
  function Unfaithful(): Setting {
    Setting(_ => IntegerDatum(5), (a, b) => Same, d => d == IntegerDatum(0))
  }

  lemma {:induction false} TowerTruth(s: Setting, e: CheckExpression)
    ensures NotDepth(e) % 2 == 0 ==> TruthOf(s, e) == TruthOf(s, Core(e))
    ensures NotDepth(e) % 2 == 1 ==> TruthOf(s, e) == Not3(TruthOf(s, Core(e)))
  {
    if NotDepth(e) > 0 {
      TowerTruth(s, e.arguments[0]);
    }
  }

  /** So `(NOT NOT x) = x` is matched with `x = x`, which is false at x = 5 and true respectively:
      what the operand condition shuts out really changes the CHECK. */
  lemma {:induction false} CollapsedOperandChangesMeaning(e: CheckExpression)
    requires NotsHaveOperand(e) && OperandsStay(e) && Collapses(e)
    ensures
      var collapsed := Node(Eq, [e, Normalize(e)]);
      var plain := Node(Eq, [Normalize(e), Normalize(e)]);
      && NotsHaveOperand(collapsed) && NotsHaveOperand(plain) && Matched(collapsed, plain)
      && exists s :: TruthOf(s, plain) != TruthOf(s, collapsed)
  {
    var r := Normalize(e);
    CollapsedMatches(e, r);
    var s := Setting(_ => IntegerDatum(5), (a, b) => if a == b then Same else Below,
                     d => d == IntegerDatum(0));
    NormalizedTower(e);
    TowerTruth(s, e);
    assert ValueOf(s, r) == LeafDatum(s, Core(e)) != ValueOf(s, e);
    PairTruth(s, e, r);
    PairTruth(s, r, r);
    assert TruthOf(s, Node(Eq, [r, r])) != TruthOf(s, Node(Eq, [e, r]));
  }

  lemma {:induction false} PairTruth(s: Setting, a: CheckExpression, b: CheckExpression)
    ensures TruthOf(s, Node(Eq, [a, b])) == Compared(s, Eq, ValueOf(s, a), ValueOf(s, b))
  {
    assert Operand(s, [a, b], 0) == ValueOf(s, a) && Operand(s, [a, b], 1) == ValueOf(s, b);
  }

  lemma {:induction false} NormalizedPair(a: CheckExpression, b: CheckExpression)
    requires NotsHaveOperand(a) && NotsHaveOperand(b)
    ensures AllNotsHaveOperand([a, b]) && NormalizeAll([a, b]) == [Normalize(a), Normalize(b)]
  {
    NormalizeAllMore(b, []);
    NormalizeAllMore(a, [b]);
    assert [b] + [] == [b] && [a] + [b] == [a, b];
  }

  lemma {:induction false} CollapsedMatches(e: CheckExpression, r: CheckExpression)
    requires NotsHaveOperand(e) && r == Normalize(e)
    ensures
      var collapsed, plain := Node(Eq, [e, r]), Node(Eq, [r, r]);
      NotsHaveOperand(collapsed) && NotsHaveOperand(plain) && Matched(collapsed, plain)
  {
    NormalizeIdempotent(e);
    NormalizedPair(e, r);
    NormalizedPair(r, r);
  }

  // ----- association never counts as drift -----

  /** The members of a nested chain of one operator, in order. */
  function ChainMembers(op: Operator, e: CheckExpression): seq<CheckExpression>
    decreases e, 1
  {
    if e.operator == op then AllChainMembers(op, e.arguments) else [e]
  }

  function AllChainMembers(op: Operator, es: seq<CheckExpression>): seq<CheckExpression>
    decreases es, 0
  {
    if es == [] then [] else ChainMembers(op, es[0]) + AllChainMembers(op, es[1..])
  }

  lemma {:induction false} ChainMembersSmaller(op: Operator, e: CheckExpression)
    requires NotsHaveOperand(e)
    ensures AllNotsHaveOperand(ChainMembers(op, e))
    ensures TotalWeight(ChainMembers(op, e)) <= Weight(e)
    ensures e.operator == op && IsChain(op) ==> TotalWeight(ChainMembers(op, e)) < Weight(e)
    decreases e, 1
  {
    if e.operator == op {
      AllChainMembersSmaller(op, e.arguments);
    } else {
      TotalWeightSingle(e);
    }
  }

  lemma {:induction false} AllChainMembersSmaller(op: Operator, es: seq<CheckExpression>)
    requires AllNotsHaveOperand(es)
    ensures AllNotsHaveOperand(AllChainMembers(op, es))
    ensures TotalWeight(AllChainMembers(op, es)) <= TotalWeight(es)
    decreases es, 0
  {
    if es != [] {
      ChainMembersSmaller(op, es[0]);
      AllChainMembersSmaller(op, es[1..]);
      TotalWeightConcat(ChainMembers(op, es[0]), AllChainMembers(op, es[1..]));
    }
  }

  /** `a` and `b` differ only in how their AND and OR chains are bracketed, at any depth. */
  predicate SameUpToBrackets(a: CheckExpression, b: CheckExpression)
    requires NotsHaveOperand(a) && NotsHaveOperand(b)
    decreases Weight(a), 1
  {
    && a.operator == b.operator
    && a.value == b.value
    && if IsChain(a.operator) then
         ChainMembersSmaller(a.operator, a);
         ChainMembersSmaller(b.operator, b);
         AllSameUpToBrackets(ChainMembers(a.operator, a), ChainMembers(b.operator, b))
       else
         AllSameUpToBrackets(a.arguments, b.arguments)
  }

  predicate AllSameUpToBrackets(a: seq<CheckExpression>, b: seq<CheckExpression>)
    requires AllNotsHaveOperand(a) && AllNotsHaveOperand(b)
    decreases TotalWeight(a), 2
  {
    && |a| == |b|
    && (a != [] ==> SameUpToBrackets(a[0], b[0]) && AllSameUpToBrackets(a[1..], b[1..]))
  }

  lemma {:induction false} FlattenMore(op: Operator, e: CheckExpression, es: seq<CheckExpression>)
    requires IsChain(op)
    ensures Flatten(op, [e] + es) == Spliced(op, e) + Flatten(op, es)
  {
    assert ([e] + es)[1..] == es;
  }

  lemma {:induction false} FlattenConcat(op: Operator, a: seq<CheckExpression>, b: seq<CheckExpression>)
    requires IsChain(op)
    ensures Flatten(op, a + b) == Flatten(op, a) + Flatten(op, b)
  {
    if a == [] {
      assert a + b == b && [] + Flatten(op, b) == Flatten(op, b);
    } else {
      var rest := a[1..];
      FlattenConcat(op, rest, b);
      FlattenMore(op, a[0], rest + b);
      FlattenMore(op, a[0], rest);
      TextCodec.Assoc([a[0]], rest, b);
      assert [a[0]] + rest == a;
      TextCodec.Assoc(Spliced(op, a[0]), Flatten(op, rest), Flatten(op, b));
    }
  }

  lemma {:induction false} NormalizeAllMore(e: CheckExpression, es: seq<CheckExpression>)
    requires NotsHaveOperand(e) && AllNotsHaveOperand(es)
    ensures AllNotsHaveOperand([e] + es) && NormalizeAll([e] + es) == [Normalize(e)] + NormalizeAll(es)
  {
    assert ([e] + es)[1..] == es;
  }

  lemma {:induction false} NormalizeAllConcat(a: seq<CheckExpression>, b: seq<CheckExpression>)
    requires AllNotsHaveOperand(a) && AllNotsHaveOperand(b)
    ensures AllNotsHaveOperand(a + b)
    ensures NormalizeAll(a + b) == NormalizeAll(a) + NormalizeAll(b)
  {
    if a == [] {
      assert a + b == b && [] + NormalizeAll(b) == NormalizeAll(b);
    } else {
      var rest := a[1..];
      NormalizeAllConcat(rest, b);
      NormalizeAllMore(a[0], rest + b);
      NormalizeAllMore(a[0], rest);
      TextCodec.Assoc([a[0]], rest, b);
      assert [a[0]] + rest == a;
      TextCodec.Assoc([Normalize(a[0])], NormalizeAll(rest), NormalizeAll(b));
    }
  }

  /** What a chain contributes depends only on its members in order. */
  lemma {:induction false} ChainContribution(op: Operator, e: CheckExpression)
    requires IsChain(op) && NotsHaveOperand(e)
    ensures AllNotsHaveOperand(ChainMembers(op, e))
    ensures e.operator == op
            ==> Normalize(e) == CheckExpression(op, Flatten(op, NormalizeAll(ChainMembers(op, e))), e.value)
    ensures Spliced(op, Normalize(e)) == Flatten(op, NormalizeAll(ChainMembers(op, e)))
    decreases e, 1
  {
    ChainMembersSmaller(op, e);
    if e.operator == op {
      AllChainContribution(op, e.arguments);
    } else {
      assert [e][1..] == [];
      assert NormalizeAll([e]) == [Normalize(e)];
      assert [Normalize(e)][1..] == [];
    }
  }

  lemma {:induction false} AllChainContribution(op: Operator, es: seq<CheckExpression>)
    requires IsChain(op) && AllNotsHaveOperand(es)
    ensures AllNotsHaveOperand(AllChainMembers(op, es))
    ensures Flatten(op, NormalizeAll(es)) == Flatten(op, NormalizeAll(AllChainMembers(op, es)))
    decreases es, 0
  {
    AllChainMembersSmaller(op, es);
    if es != [] {
      ChainContribution(op, es[0]);
      AllChainContribution(op, es[1..]);
      var head, tail := ChainMembers(op, es[0]), AllChainMembers(op, es[1..]);
      NormalizeAllConcat(head, tail);
      FlattenConcat(op, NormalizeAll(head), NormalizeAll(tail));
      assert NormalizeAll(es)[1..] == NormalizeAll(es[1..]);
    }
  }

  /** Re-bracketing AND and OR chains anywhere in a CHECK is always a match. */
  lemma {:induction false} RebracketingMatches(a: CheckExpression, b: CheckExpression)
    requires NotsHaveOperand(a) && NotsHaveOperand(b)
    requires SameUpToBrackets(a, b)
    ensures Matched(a, b)
    decreases Weight(a), 1
  {
    if IsChain(a.operator) {
      ChainMembersSmaller(a.operator, a);
      ChainMembersSmaller(b.operator, b);
      AllRebracketingMatches(ChainMembers(a.operator, a), ChainMembers(b.operator, b));
      ChainContribution(a.operator, a);
      ChainContribution(b.operator, b);
    } else {
      AllRebracketingMatches(a.arguments, b.arguments);
    }
  }

  lemma {:induction false} AllRebracketingMatches(a: seq<CheckExpression>, b: seq<CheckExpression>)
    requires AllNotsHaveOperand(a) && AllNotsHaveOperand(b)
    requires AllSameUpToBrackets(a, b)
    ensures NormalizeAll(a) == NormalizeAll(b)
    decreases TotalWeight(a), 2
  {
    if a != [] {
      RebracketingMatches(a[0], b[0]);
      AllRebracketingMatches(a[1..], b[1..]);
    }
  }
}
