/** Balanced token lists, and rendered CHECKs as an instance of them. */
module TokenBalance {
  import opened TextCodec
  import opened CheckTree
  import opened CheckLexer
  import opened CheckParser
  import opened CheckRender
  import opened CheckParseBack
  import opened CheckCatalog

  // ----- balanced text without a bare CHECK -----

  /** The parentheses of `ts` match, and no CHECK word stands outside them. */
  predicate Quiet(ts: seq<Token>, depth: nat) {
    if ts == [] then depth == 0
    else if ts[0] == Punctuation("(") then Quiet(ts[1..], depth + 1)
    else if ts[0] == Punctuation(")") then depth > 0 && Quiet(ts[1..], depth - 1)
    else !(depth == 0 && IsWord(ts[0], "CHECK")) && Quiet(ts[1..], depth)
  }

  lemma {:induction false} QuietConcat(a: seq<Token>, b: seq<Token>, depth: nat)
    requires Quiet(a, depth) && Quiet(b, 0)
    ensures Quiet(a + b, depth)
    decreases |a|
  {
    if a == [] {
      assert a + b == b;
    } else {
      assert (a + b)[0] == a[0] && (a + b)[1..] == a[1..] + b;
      var next := if a[0] == Punctuation("(") then depth + 1
                  else if a[0] == Punctuation(")") then depth - 1 else depth;
      QuietConcat(a[1..], b, next);
    }
  }

  /** Inside parentheses even CHECK is quiet. */
  lemma {:induction false} QuietNested(ts: seq<Token>, depth: nat)
    requires Balanced(ts, depth)
    ensures Quiet(ts + [Punctuation(")")], depth + 1)
    decreases |ts|
  {
    var all := ts + [Punctuation(")")];
    if ts == [] {
      assert all[1..] == [];
    } else {
      assert all[0] == ts[0] && all[1..] == ts[1..] + [Punctuation(")")];
      var next := if ts[0] == Punctuation("(") then depth + 1
                  else if ts[0] == Punctuation(")") then depth - 1 else depth;
      QuietNested(ts[1..], next);
    }
  }

  predicate Balanced(ts: seq<Token>, depth: nat) {
    if ts == [] then depth == 0
    else if ts[0] == Punctuation("(") then Balanced(ts[1..], depth + 1)
    else if ts[0] == Punctuation(")") then depth > 0 && Balanced(ts[1..], depth - 1)
    else Balanced(ts[1..], depth)
  }

  lemma {:induction false} BalancedConcat(a: seq<Token>, b: seq<Token>, depth: nat)
    requires Balanced(a, depth) && Balanced(b, 0)
    ensures Balanced(a + b, depth)
    decreases |a|
  {
    if a == [] {
      assert a + b == b;
    } else {
      assert (a + b)[0] == a[0] && (a + b)[1..] == a[1..] + b;
      var next := if a[0] == Punctuation("(") then depth + 1
                  else if a[0] == Punctuation(")") then depth - 1 else depth;
      BalancedConcat(a[1..], b, next);
    }
  }

  lemma BalancedGroup(ts: seq<Token>, depth: nat)
    requires Balanced(ts, depth)
    ensures Balanced(ts + [Punctuation(")")], depth + 1)
    decreases |ts|
  {
    var all := ts + [Punctuation(")")];
    if ts == [] {
      assert all[1..] == [];
    } else {
      assert all[0] == ts[0] && all[1..] == ts[1..] + [Punctuation(")")];
      var next := if ts[0] == Punctuation("(") then depth + 1
                  else if ts[0] == Punctuation(")") then depth - 1 else depth;
      BalancedGroup(ts[1..], next);
    }
  }

  /** `(..)` around balanced tokens. */
  lemma {:induction false} BalancedParens(ts: seq<Token>)
    requires Balanced(ts, 0)
    ensures Balanced([Punctuation("(")] + ts + [Punctuation(")")], 0)
    ensures Quiet([Punctuation("(")] + ts + [Punctuation(")")], 0)
  {
    var inner := ts + [Punctuation(")")];
    BalancedGroup(ts, 0);
    QuietNested(ts, 0);
    var all := [Punctuation("(")] + inner;
    assert [Punctuation("(")] + ts + [Punctuation(")")] == all;
    assert all[1..] == inner;
  }

  predicate Unnested(token: Token) {
    token != Punctuation("(") && token != Punctuation(")")
  }

  lemma {:induction false} BalancedPlain(ts: seq<Token>)
    requires forall i :: 0 <= i < |ts| ==> Unnested(ts[i])
    ensures Balanced(ts, 0)
    ensures (forall i :: 0 <= i < |ts| ==> !IsWord(ts[i], "CHECK")) ==> Quiet(ts, 0)
  {
    if ts != [] {
      assert Unnested(ts[0]);
      BalancedPlain(ts[1..]);
    }
  }

  // ----- rendered expressions are balanced -----

  lemma LeafBalanced(e: CheckExpression)
    requires IsColumn(e) || IsLiteral(e)
    ensures Balanced(LeafTokens(Sqlite, e), 0)
  {
    var ts := LeafTokens(Sqlite, e);
    if e.operator.Literal? && e.value.Text? && HasNul(e.value.text) {
      var hex := Token(LiteralText, ToHex(Utf8Encode(e.value.text)));
      var inner := [Keyword("X"), hex, Keyword("AS"), Keyword("TEXT")];
      BalancedPlain(inner);
      BalancedParens(inner);
      var call := [Punctuation("(")] + inner + [Punctuation(")")];
      assert ts == [Keyword("CAST")] + call;
      assert ts[1..] == call;
    } else {
      BalancedPlain(ts);
    }
  }

  lemma {:induction false} ListBalanced(es: seq<CheckExpression>)
    requires es != [] && forall i :: 0 <= i < |es| ==> IsLiteral(es[i])
    ensures Balanced(ListTokens(Sqlite, es), 0)
  {
    LeafBalanced(es[0]);
    var leaf := LeafTokens(Sqlite, es[0]);
    if |es| == 1 {
      assert leaf + [] == leaf;
    } else {
      ListBalanced(es[1..]);
      BalancedPlain([Punctuation(",")]);
      var more := ListTokens(Sqlite, es[1..]);
      BalancedConcat([Punctuation(",")], more, 0);
      BalancedConcat(leaf, [Punctuation(",")] + more, 0);
    }
  }

  lemma {:induction false} AtomBalanced(e: CheckExpression)
    requires IsBound(e) && IsAtomic(e)
    ensures Balanced(Tokens(Sqlite, e), 0)
  {
    var args := e.arguments;
    var left := LeafTokens(Sqlite, args[0]);
    LeafBalanced(args[0]);
    if e.operator.IsNull? || e.operator.IsNotNull? {
      var test := if e.operator.IsNull? then [Keyword("IS"), Keyword("NULL")]
                  else [Keyword("IS"), Keyword("NOT"), Keyword("NULL")];
      BalancedPlain(test);
      BalancedConcat(left, test, 0);
    } else if e.operator.In? || e.operator.NotIn? {
      var words := if e.operator.In? then [Keyword("IN")] else [Keyword("NOT"), Keyword("IN")];
      var list := ListTokens(Sqlite, args[1..]);
      BalancedPlain(words);
      ListBalanced(args[1..]);
      BalancedParens(list);
      var group := [Punctuation("(")] + list + [Punctuation(")")];
      BalancedConcat(words, group, 0);
      BalancedConcat(left, words + group, 0);
      MembershipTokens(e);
    } else {
      RangeOrComparisonBalanced(e);
    }
  }

  lemma {:induction false} MembershipTokens(e: CheckExpression)
    requires IsBound(e) && (e.operator.In? || e.operator.NotIn?)
    ensures
      var words := if e.operator.In? then [Keyword("IN")] else [Keyword("NOT"), Keyword("IN")];
      Tokens(Sqlite, e)
      == LeafTokens(Sqlite, e.arguments[0])
         + (words + ([Punctuation("(")] + ListTokens(Sqlite, e.arguments[1..]) + [Punctuation(")")]))
  {
  }

  lemma {:induction false} RangeOrComparisonBalanced(e: CheckExpression)
    requires IsBound(e) && (e.operator.Between? || IsComparison(e.operator))
    ensures Balanced(Tokens(Sqlite, e), 0)
  {
    var args := e.arguments;
    var left, next := LeafTokens(Sqlite, args[0]), LeafTokens(Sqlite, args[1]);
    var op := if e.operator.Between? then [Keyword("BETWEEN")] else [Punctuation(ComparisonSql(e.operator))];
    LeafBalanced(args[0]);
    LeafBalanced(args[1]);
    BalancedPlain(op);
    BalancedConcat(left, op, 0);
    BalancedConcat(left + op, next, 0);
    if e.operator.Between? {
      LeafBalanced(args[2]);
      BalancedPlain([Keyword("AND")]);
      BalancedConcat(left + op + next, [Keyword("AND")], 0);
      BalancedConcat(left + op + next + [Keyword("AND")], LeafTokens(Sqlite, args[2]), 0);
    }
  }

  lemma PairAssoc<T>(open: seq<T>, a: seq<T>, close: seq<T>, word: seq<T>, b: seq<T>)
    ensures open + a + (close + word + open) + b + close == open + a + close + (word + (open + b + close))
  {
    Assoc(open + a + (close + word + open), b, close);
    Assoc(open + a, close + word + open, b + close);
    Assoc(close + word, open, b + close);
    Assoc(close, word, open + (b + close));
    Assoc(open + a, close, word + (open + (b + close)));
    Assoc(open, b, close);
  }

  lemma {:induction false} ConnectiveTokens(e: CheckExpression)
    requires IsBound(e) && !IsAtomic(e)
    ensures
      var left := [Punctuation("(")] + Tokens(Sqlite, e.arguments[0]) + [Punctuation(")")];
      if e.operator.Not? then Tokens(Sqlite, e) == [Keyword("NOT")] + left
      else Tokens(Sqlite, e)
           == left + ([Keyword(OperatorWord(e.operator))]
                      + ([Punctuation("(")] + Tokens(Sqlite, e.arguments[1]) + [Punctuation(")")]))
  {
    var open, close := [Punctuation("(")], [Punctuation(")")];
    if e.operator.Not? {
      assert [Keyword("NOT"), Punctuation("(")] == [Keyword("NOT")] + open;
      Assoc([Keyword("NOT")] + open, Tokens(Sqlite, e.arguments[0]), close);
      Assoc([Keyword("NOT")], open, Tokens(Sqlite, e.arguments[0]) + close);
      Assoc(open, Tokens(Sqlite, e.arguments[0]), close);
    } else {
      var word := [Keyword(OperatorWord(e.operator))];
      assert close + word + open == [Punctuation(")"), Keyword(OperatorWord(e.operator)), Punctuation("(")];
      PairAssoc(open, Tokens(Sqlite, e.arguments[0]), close, word, Tokens(Sqlite, e.arguments[1]));
    }
  }

  lemma {:induction false} RenderBalanced(e: CheckExpression)
    requires IsBound(e)
    ensures Balanced(Tokens(Sqlite, e), 0)
    decreases e
  {
    if IsAtomic(e) {
      AtomBalanced(e);
    } else {
      var left := [Punctuation("(")] + Tokens(Sqlite, e.arguments[0]) + [Punctuation(")")];
      RenderBalanced(e.arguments[0]);
      BalancedParens(Tokens(Sqlite, e.arguments[0]));
      ConnectiveTokens(e);
      if e.operator.Not? {
        BalancedPlain([Keyword("NOT")]);
        BalancedConcat([Keyword("NOT")], left, 0);
      } else {
        RenderBalanced(e.arguments[1]);
        BalancedParens(Tokens(Sqlite, e.arguments[1]));
        var right := [Punctuation("(")] + Tokens(Sqlite, e.arguments[1]) + [Punctuation(")")];
        var word := [Keyword(OperatorWord(e.operator))];
        BalancedPlain(word);
        BalancedConcat(word, right, 0);
        BalancedConcat(left, word + right, 0);
      }
    }
  }

  // ----- tokens at a position -----

  predicate At(ts: seq<Token>, p: nat, x: seq<Token>) {
    p + |x| <= |ts| && forall i :: 0 <= i < |x| ==> x[i] == ts[p + i]
  }

  lemma AtConcat(ts: seq<Token>, p: nat, a: seq<Token>, b: seq<Token>)
    ensures At(ts, p, a + b) <==> At(ts, p, a) && At(ts, p + |a|, b)
  {
    if At(ts, p, a + b) {
      forall i | 0 <= i < |a| ensures a[i] == ts[p + i] {
        assert (a + b)[i] == a[i];
      }
      forall i | 0 <= i < |b| ensures b[i] == ts[p + |a| + i] {
        assert (a + b)[|a| + i] == b[i];
      }
    } else if At(ts, p, a) && At(ts, p + |a|, b) {
      forall i | 0 <= i < |a + b| ensures (a + b)[i] == ts[p + i] {
        assert (a + b)[i] == if i < |a| then a[i] else b[i - |a|];
      }
    }
  }

  lemma AtTail(ts: seq<Token>, p: nat, x: seq<Token>)
    requires At(ts, p, x) && x != []
    ensures ts[p] == x[0] && At(ts, p + 1, x[1..])
  {
    forall i | 0 <= i < |x[1..]| ensures x[1..][i] == ts[p + 1 + i] {
      assert x[1..][i] == x[i + 1];
    }
  }

  lemma AtSlice(ts: seq<Token>, p: nat, x: seq<Token>)
    requires At(ts, p, x)
    ensures ts[p..p + |x|] == x
  {
  }
}
