/** Parsing the tokens of a rendered CHECK returns the tree that was rendered. */
module CheckParseBack {
  import opened TextCodec
  import opened CheckTree
  import opened CheckLexer
  import opened CheckParser
  import opened CheckRender
  import opened CheckRoundTrip

  // ----- what the parser sees at a token -----

  lemma UpperFixed(s: string)
    requires forall i :: 0 <= i < |s| ==> !('a' <= s[i] <= 'z')
    ensures Upper(s) == s
  {
  }

  /** Nothing after an operand continues it. */
  predicate Stops(ts: seq<Token>) {
    ts == [] || ts[0] in [Punctuation(")"), Keyword("AND"), Keyword("OR")]
  }

  lemma {:induction false} StopsHere(keywords: bool, left: CheckExpression, ts: seq<Token>)
    requires Stops(ts)
    ensures AfterOperand(keywords, left, ts) == Ok(left, ts)
  {
    if ts != [] {
      UpperFixed(ts[0].text);
    }
  }

  // ----- operands -----

  lemma {:induction false} OperandColumn(keywords: bool, name: string, rest: seq<Token>)
    ensures Operand(keywords, [Token(Identifier, name)] + rest) == Ok(ColumnRef(name), rest)
  {
    var ts := [Token(Identifier, name)] + rest;
    assert ts[0] == Token(Identifier, name) && ts[1..] == rest;
  }

  lemma {:induction false} OperandPlainText(keywords: bool, text: string, rest: seq<Token>)
    ensures Operand(keywords, [Token(LiteralText, text)] + rest) == Ok(LiteralOf(Text(text)), rest)
  {
    var ts := [Token(LiteralText, text)] + rest;
    assert ts[0] == Token(LiteralText, text) && ts[1..] == rest;
  }

  lemma {:induction false} OperandDigits(keywords: bool, digits: string, n: nat, rest: seq<Token>)
    requires IntegerText(digits) == Some(n)
    ensures Operand(keywords, [Token(Number, digits)] + rest) == Ok(LiteralOf(Integer(n)), rest)
  {
    var ts := [Token(Number, digits)] + rest;
    assert ts[0] == Token(Number, digits) && ts[1..] == rest;
  }

  lemma {:induction false} OperandNegative(keywords: bool, digits: string, n: nat, rest: seq<Token>)
    requires IntegerText(digits) == Some(n)
    ensures Operand(keywords, [Punctuation("-")] + ([Token(Number, digits)] + rest))
            == Ok(LiteralOf(Integer(-(n as int))), rest)
  {
    var after := [Token(Number, digits)] + rest;
    var ts := [Punctuation("-")] + after;
    UpperFixed("-");
    assert ts[0] == Punctuation("-") && ts[1..] == after;
    assert after[0] == Token(Number, digits) && after[1..] == rest;
  }

  lemma {:induction false} OperandInteger(keywords: bool, n: int, rest: seq<Token>)
    ensures Operand(keywords, IntegerTokens(n) + rest) == Ok(LiteralOf(Integer(n)), rest)
  {
    if n < 0 {
      DecimalRoundTrip(-n);
      OperandNegative(keywords, Decimal(-n), -n, rest);
      assert IntegerTokens(n) + rest == [Punctuation("-")] + ([Token(Number, Decimal(-n))] + rest);
    } else {
      DecimalRoundTrip(n);
      OperandDigits(keywords, Decimal(n), n, rest);
    }
  }

  lemma HexCallParses(word: string, target: string, hex: string, text: string, rest: seq<Token>)
    requires HexText(hex) == Some(text)
    ensures HexCall(Upper(word), Upper(target),
                    [Punctuation("("), Keyword("X"), Token(LiteralText, hex), Keyword(word), Keyword(target),
                     Punctuation(")")] + rest)
            == Ok(LiteralOf(Text(text)), rest)
  {
    var ts := [Punctuation("("), Keyword("X"), Token(LiteralText, hex), Keyword(word), Keyword(target),
               Punctuation(")")] + rest;
    UpperFixed("(");
    UpperFixed("X");
    UpperFixed(")");
    assert ts[6..] == rest;
  }

  /** A word that opens a hexadecimal call is neither punctuation, a sign nor a number. */
  lemma {:induction false} OperandWord(keywords: bool, token: Token, rest: seq<Token>)
    requires token.kind.Word? && |token.text| > 1
    ensures Operand(keywords, [token] + rest) == Unsigned(keywords, [token] + rest)
  {
    var ts := [token] + rest;
    assert ts[0] == token;
  }

  lemma UnsignedHexCall(keywords: bool, mariadb: bool, hex: string, text: string, rest: seq<Token>)
    requires HexText(hex) == Some(text)
    ensures
      var name := if mariadb then "CONVERT" else "CAST";
      var word := if mariadb then "USING" else "AS";
      var target := if mariadb then "utf8mb4" else "TEXT";
      Operand(keywords, [Keyword(name)] + ([Punctuation("("), Keyword("X"), Token(LiteralText, hex),
                         Keyword(word), Keyword(target), Punctuation(")")] + rest))
      == Ok(LiteralOf(Text(text)), rest)
  {
    var name := if mariadb then "CONVERT" else "CAST";
    var word := if mariadb then "USING" else "AS";
    var target := if mariadb then "utf8mb4" else "TEXT";
    HexCallParses(word, target, hex, text, rest);
    var call := [Punctuation("("), Keyword("X"), Token(LiteralText, hex), Keyword(word), Keyword(target),
                 Punctuation(")")] + rest;
    OperandWord(keywords, Keyword(name), call);
    HexCallNames();
    if mariadb {
      UnsignedConvert(keywords, call);
    } else {
      UnsignedCast(keywords, call);
    }
  }

  lemma HexCallNames()
    ensures Upper("USING") == "USING" && Upper("AS") == "AS"
    ensures Upper("utf8mb4") == "UTF8MB4" && Upper("TEXT") == "TEXT"
  {
  }

  lemma UnsignedConvert(keywords: bool, call: seq<Token>)
    ensures Unsigned(keywords, [Keyword("CONVERT")] + call) == HexCall("USING", "UTF8MB4", call)
  {
    UpperFixed("CONVERT");
    assert ([Keyword("CONVERT")] + call)[1..] == call;
  }

  lemma UnsignedCast(keywords: bool, call: seq<Token>)
    ensures Unsigned(keywords, [Keyword("CAST")] + call) == HexCall("AS", "TEXT", call)
  {
    UpperFixed("CAST");
    assert ([Keyword("CAST")] + call)[1..] == call;
  }

  lemma {:induction false} HexTokens(backend: Backend, text: string, rest: seq<Token>)
    requires backend.Mariadb? || HasNul(text)
    ensures
      var name := if backend.Mariadb? then "CONVERT" else "CAST";
      var word := if backend.Mariadb? then "USING" else "AS";
      var target := if backend.Mariadb? then "utf8mb4" else "TEXT";
      TextTokens(backend, text) + rest
      == [Keyword(name)] + ([Punctuation("("), Keyword("X"), Token(LiteralText, ToHex(Utf8Encode(text))),
                            Keyword(word), Keyword(target), Punctuation(")")] + rest)
  {
  }

  lemma {:induction false} OperandHexText(keywords: bool, backend: Backend, text: string, rest: seq<Token>)
    requires backend.Mariadb? || HasNul(text)
    ensures Operand(keywords, TextTokens(backend, text) + rest) == Ok(LiteralOf(Text(text)), rest)
  {
    HexTextRoundTrip(text);
    HexTokens(backend, text, rest);
    UnsignedHexCall(keywords, backend.Mariadb?, ToHex(Utf8Encode(text)), text, rest);
  }

  lemma {:induction false} OperandLeaf(keywords: bool, backend: Backend, e: CheckExpression, rest: seq<Token>)
    requires IsColumn(e) || IsLiteral(e)
    ensures Operand(keywords, LeafTokens(backend, e) + rest) == Ok(e, rest)
  {
    if e.operator.Column? {
      OperandColumn(keywords, e.value.text, rest);
    } else if e.value.Integer? {
      OperandInteger(keywords, e.value.number, rest);
    } else if backend.Mariadb? || HasNul(e.value.text) {
      OperandHexText(keywords, backend, e.value.text, rest);
    } else {
      OperandPlainText(keywords, e.value.text, rest);
    }
  }

  /** A leaf's tokens never start with NOT or a parenthesis. */
  lemma {:induction false} LeafStart(keywords: bool, backend: Backend, e: CheckExpression, rest: seq<Token>)
    requires IsColumn(e)
    ensures Comparison(keywords, LeafTokens(backend, e) + rest) == AfterOperand(keywords, e, rest)
  {
    OperandLeaf(keywords, backend, e, rest);
    assert (LeafTokens(backend, e) + rest)[0].kind.Identifier?;
  }

  // ----- what may follow an operand -----

  lemma {:induction false} AfterNull(keywords: bool, left: CheckExpression, rest: seq<Token>)
    ensures AfterOperand(keywords, left, [Keyword("IS"), Keyword("NULL")] + rest) == Ok(Node(IsNull, [left]), rest)
    ensures AfterOperand(keywords, left, [Keyword("IS"), Keyword("NOT"), Keyword("NULL")] + rest)
            == Ok(Node(IsNotNull, [left]), rest)
  {
    UpperFixed("IS");
    UpperFixed("NOT");
    UpperFixed("NULL");
    var plain := [Keyword("IS"), Keyword("NULL")] + rest;
    assert plain[1..][0] == Keyword("NULL") && plain[1..][1..] == rest;
    var negated := [Keyword("IS"), Keyword("NOT"), Keyword("NULL")] + rest;
    assert negated[1..][0] == Keyword("NOT");
    assert negated[2..][0] == Keyword("NULL") && negated[2..][1..] == rest;
  }

  lemma {:induction false} AfterIn(keywords: bool, left: CheckExpression, rest: seq<Token>)
    ensures AfterOperand(keywords, left, [Keyword("IN")] + rest) == Membership(keywords, false, left, rest)
    ensures AfterOperand(keywords, left, [Keyword("NOT"), Keyword("IN")] + rest)
            == Membership(keywords, true, left, rest)
  {
    UpperFixed("IN");
    UpperFixed("NOT");
    var plain := [Keyword("IN")] + rest;
    assert plain[0] == Keyword("IN") && plain[1..] == rest;
    var negated := [Keyword("NOT"), Keyword("IN")] + rest;
    assert negated[0] == Keyword("NOT") && negated[1..][0] == Keyword("IN") && negated[1..][1..] == rest;
  }

  lemma {:induction false} AfterBetween(keywords: bool, left: CheckExpression, rest: seq<Token>)
    ensures AfterOperand(keywords, left, [Keyword("BETWEEN")] + rest) == Range(keywords, false, left, rest)
  {
    UpperFixed("BETWEEN");
    var ts := [Keyword("BETWEEN")] + rest;
    assert ts[0] == Keyword("BETWEEN") && ts[1..] == rest;
  }

  lemma {:induction false} AfterComparison(keywords: bool, op: Operator, left: CheckExpression, rest: seq<Token>)
    requires IsComparison(op) && Operand(keywords, rest).Ok?
    ensures
      var right := Operand(keywords, rest);
      AfterOperand(keywords, left, [Punctuation(ComparisonSql(op))] + rest)
      == Ok(Node(op, [left, right.result]), right.rest)
  {
    var text := ComparisonSql(op);
    UpperFixed(text);
    var ts := [Punctuation(text)] + rest;
    assert ts[0] == Punctuation(text) && ts[1..] == rest;
  }

  // ----- lists -----

  function ListTail(backend: Backend, es: seq<CheckExpression>): seq<Token>
    requires forall i :: 0 <= i < |es| ==> IsLiteral(es[i])
  {
    if es == [] then [] else [Punctuation(",")] + ListTokens(backend, es)
  }

  lemma {:induction false} ListShape(backend: Backend, es: seq<CheckExpression>, rest: seq<Token>)
    requires es != [] && forall i :: 0 <= i < |es| ==> IsLiteral(es[i])
    ensures ListTokens(backend, es) + rest
            == LeafTokens(backend, es[0]) + (ListTail(backend, es[1..]) + rest)
    ensures ListTail(backend, es) + rest
            == [Punctuation(",")] + (LeafTokens(backend, es[0]) + (ListTail(backend, es[1..]) + rest))
  {
    var leaf, tail := LeafTokens(backend, es[0]), ListTail(backend, es[1..]);
    assert ListTokens(backend, es) == leaf + tail;
    Assoc(leaf, tail, rest);
    Assoc([Punctuation(",")], leaf + tail, rest);
  }

  /** After any values read so far, the tokens read as these further values. */
  ghost predicate ReadsMembers(keywords: bool, ts: seq<Token>, es: seq<CheckExpression>, rest: seq<Token>) {
    forall values :: MembersTail(keywords, values, ts) == Ok(values + es, rest)
  }

  lemma MembersEnd(keywords: bool, rest: seq<Token>)
    requires rest != [] && rest[0] == Punctuation(")")
    ensures ReadsMembers(keywords, rest, [], rest)
  {
    UpperFixed(")");
    forall values: seq<CheckExpression> ensures MembersTail(keywords, values, rest) == Ok(values + [], rest) {
      assert values + [] == values;
    }
  }

  lemma {:induction false} MembersStep(keywords: bool, after: seq<Token>, e: CheckExpression, more: seq<Token>,
                    es: seq<CheckExpression>, rest: seq<Token>)
    requires Operand(keywords, after) == Ok(e, more) && ReadsMembers(keywords, more, es, rest)
    ensures ReadsMembers(keywords, [Punctuation(",")] + after, [e] + es, rest)
  {
    UpperFixed(",");
    var ts := [Punctuation(",")] + after;
    assert ts[0] == Punctuation(",") && ts[1..] == after;
    forall values: seq<CheckExpression> ensures MembersTail(keywords, values, ts) == Ok(values + ([e] + es), rest) {
      assert MembersTail(keywords, values, ts) == MembersTail(keywords, values + [e], more);
      assert values + [e] + es == values + ([e] + es);
    }
  }

  lemma {:induction false} MembersParse(keywords: bool, backend: Backend, es: seq<CheckExpression>, rest: seq<Token>)
    requires forall i :: 0 <= i < |es| ==> IsLiteral(es[i])
    requires rest != [] && rest[0] == Punctuation(")")
    ensures ReadsMembers(keywords, ListTail(backend, es) + rest, es, rest)
    decreases |es|
  {
    if es == [] {
      MembersEnd(keywords, rest);
      assert ListTail(backend, es) + rest == rest;
    } else {
      var more := ListTail(backend, es[1..]) + rest;
      MembersParse(keywords, backend, es[1..], rest);
      OperandLeaf(keywords, backend, es[0], more);
      MembersStep(keywords, LeafTokens(backend, es[0]) + more, es[0], more, es[1..], rest);
      ListShape(backend, es, rest);
      assert [es[0]] + es[1..] == es;
    }
  }

  lemma {:induction false} MembershipSteps(keywords: bool, negated: bool, left: CheckExpression, list: seq<Token>,
                        values: seq<CheckExpression>, rest: seq<Token>)
    requires Operand(keywords, list).Ok?
    requires MembersTail(keywords, [Operand(keywords, list).result], Operand(keywords, list).rest)
             == Ok(values, [Punctuation(")")] + rest)
    ensures Membership(keywords, negated, left, [Punctuation("(")] + list)
            == Ok(Node(if negated then NotIn else In, [left] + values), rest)
  {
    UpperFixed("(");
    UpperFixed(")");
    var ts := [Punctuation("(")] + list;
    assert ts[0] == Punctuation("(") && ts[1..] == list;
    assert ([Punctuation(")")] + rest)[1..] == rest;
  }

  lemma {:induction false} MembershipParses(keywords: bool, backend: Backend, negated: bool, left: CheckExpression,
                         es: seq<CheckExpression>, rest: seq<Token>)
    requires es != [] && forall i :: 0 <= i < |es| ==> IsLiteral(es[i])
    ensures Membership(keywords, negated, left,
                       [Punctuation("(")] + (ListTokens(backend, es) + ([Punctuation(")")] + rest)))
            == Ok(Node(if negated then NotIn else In, [left] + es), rest)
  {
    var end := [Punctuation(")")] + rest;
    ListShape(backend, es, end);
    OperandLeaf(keywords, backend, es[0], ListTail(backend, es[1..]) + end);
    MembersParse(keywords, backend, es[1..], end);
    assert [es[0]] + es[1..] == es;
    MembershipSteps(keywords, negated, left, ListTokens(backend, es) + end, es, rest);
  }

  lemma {:induction false} RangeParses(keywords: bool, backend: Backend, left: CheckExpression, low: CheckExpression,
                    high: CheckExpression, rest: seq<Token>)
    requires IsLiteral(low) && IsLiteral(high)
    ensures Range(keywords, false, left,
                  LeafTokens(backend, low) + [Keyword("AND")] + LeafTokens(backend, high) + rest)
            == Ok(Node(Between, [left, low, high]), rest)
  {
    var leaf, next := LeafTokens(backend, low), LeafTokens(backend, high) + rest;
    OperandLeaf(keywords, backend, low, [Keyword("AND")] + next);
    OperandLeaf(keywords, backend, high, rest);
    RangeOf(keywords, left, leaf + ([Keyword("AND")] + next), low, next, high, rest);
    RangeAssoc(leaf, [Keyword("AND")], LeafTokens(backend, high), rest);
  }

  lemma RangeAssoc<T>(a: seq<T>, b: seq<T>, c: seq<T>, d: seq<T>)
    ensures a + b + c + d == a + (b + (c + d))
  {
    Assoc(a + b, c, d);
    Assoc(a, b, c + d);
  }

  lemma {:induction false} RangeOf(keywords: bool, left: CheckExpression, ts: seq<Token>, low: CheckExpression,
                                   next: seq<Token>, high: CheckExpression, rest: seq<Token>)
    requires Operand(keywords, ts) == Ok(low, [Keyword("AND")] + next) && Operand(keywords, next) == Ok(high, rest)
    ensures Range(keywords, false, left, ts) == Ok(Node(Between, [left, low, high]), rest)
  {
    var after := [Keyword("AND")] + next;
    UpperFixed("AND");
    assert after[0] == Keyword("AND") && after[1..] == next;
  }

  // ----- conditions -----

  /** A rendered condition that is neither a conjunction nor a disjunction is one comparison. */
  predicate IsAtomic(e: CheckExpression) {
    !e.operator.And? && !e.operator.Or? && !e.operator.Not?
  }

  lemma {:induction false} AtomicParses(keywords: bool, backend: Backend, e: CheckExpression, rest: seq<Token>)
    requires IsBound(e) && IsAtomic(e)
    ensures Comparison(keywords, Tokens(backend, e) + rest) == Ok(e, rest)
  {
    var args := e.arguments;
    var left := LeafTokens(backend, args[0]);
    if e.operator.IsNull? {
      var tail := [Keyword("IS"), Keyword("NULL")] + rest;
      assert Tokens(backend, e) + rest == left + tail;
      LeafStart(keywords, backend, args[0], tail);
      AfterNull(keywords, args[0], rest);
      assert e == Node(IsNull, [args[0]]);
    } else if e.operator.IsNotNull? {
      var tail := [Keyword("IS"), Keyword("NOT"), Keyword("NULL")] + rest;
      assert Tokens(backend, e) + rest == left + tail;
      LeafStart(keywords, backend, args[0], tail);
      AfterNull(keywords, args[0], rest);
      assert e == Node(IsNotNull, [args[0]]);
    } else if e.operator.In? || e.operator.NotIn? {
      MembershipAtom(keywords, backend, e, rest);
    } else if e.operator.Between? {
      RangeAtom(keywords, backend, e, rest);
    } else {
      ComparisonAtom(keywords, backend, e, rest);
    }
  }

  lemma ListAssoc<T>(a: seq<T>, words: seq<T>, open: seq<T>, list: seq<T>, close: seq<T>, rest: seq<T>)
    ensures a + (words + open) + list + close + rest == a + (words + (open + (list + (close + rest))))
  {
    Assoc(a + (words + open) + list, close, rest);
    Assoc(a + (words + open), list, close + rest);
    Assoc(a, words + open, list + (close + rest));
    Assoc(words, open, list + (close + rest));
  }

  lemma {:induction false} MembershipShape(backend: Backend, e: CheckExpression, rest: seq<Token>)
    requires IsBound(e) && (e.operator.In? || e.operator.NotIn?)
    ensures
      var list := [Punctuation("(")] + (ListTokens(backend, e.arguments[1..]) + ([Punctuation(")")] + rest));
      Tokens(backend, e) + rest
      == LeafTokens(backend, e.arguments[0])
         + ((if e.operator.In? then [Keyword("IN")] else [Keyword("NOT"), Keyword("IN")]) + list)
  {
    var words := if e.operator.In? then [Keyword("IN")] else [Keyword("NOT"), Keyword("IN")];
    assert words + [Punctuation("(")]
        == if e.operator.In? then [Keyword("IN"), Punctuation("(")] else [Keyword("NOT"), Keyword("IN"), Punctuation("(")];
    ListAssoc(LeafTokens(backend, e.arguments[0]), words, [Punctuation("(")],
              ListTokens(backend, e.arguments[1..]), [Punctuation(")")], rest);
  }

  /** An operand and what continues it make one comparison. */
  lemma {:induction false} AtomParses(keywords: bool, ts: seq<Token>, head: seq<Token>, tail: seq<Token>, left: CheckExpression,
                   e: CheckExpression, rest: seq<Token>)
    requires ts == head + tail && Comparison(keywords, head + tail) == AfterOperand(keywords, left, tail)
    requires AfterOperand(keywords, left, tail) == Ok(e, rest)
    ensures Comparison(keywords, ts) == Ok(e, rest)
  {
  }

  lemma MembershipTail(keywords: bool, backend: Backend, negated: bool, left: CheckExpression,
                       es: seq<CheckExpression>, rest: seq<Token>)
    requires es != [] && forall i :: 0 <= i < |es| ==> IsLiteral(es[i])
    ensures
      var list := [Punctuation("(")] + (ListTokens(backend, es) + ([Punctuation(")")] + rest));
      AfterOperand(keywords, left, (if !negated then [Keyword("IN")] else [Keyword("NOT"), Keyword("IN")]) + list)
      == Ok(Node(if negated then NotIn else In, [left] + es), rest)
  {
    AfterIn(keywords, left, [Punctuation("(")] + (ListTokens(backend, es) + ([Punctuation(")")] + rest)));
    MembershipParses(keywords, backend, negated, left, es, rest);
  }

  lemma {:induction false} MembershipAtom(keywords: bool, backend: Backend, e: CheckExpression, rest: seq<Token>)
    requires IsBound(e) && (e.operator.In? || e.operator.NotIn?)
    ensures Comparison(keywords, Tokens(backend, e) + rest) == Ok(e, rest)
  {
    var args := e.arguments;
    var list := [Punctuation("(")] + (ListTokens(backend, args[1..]) + ([Punctuation(")")] + rest));
    var tail := (if e.operator.In? then [Keyword("IN")] else [Keyword("NOT"), Keyword("IN")]) + list;
    MembershipShape(backend, e, rest);
    LeafStart(keywords, backend, args[0], tail);
    MembershipTail(keywords, backend, e.operator.NotIn?, args[0], args[1..], rest);
    assert [args[0]] + args[1..] == args;
    AtomParses(keywords, Tokens(backend, e) + rest, LeafTokens(backend, args[0]), tail, args[0], e, rest);
  }

  lemma {:induction false} RangeShape(backend: Backend, e: CheckExpression, rest: seq<Token>)
    requires IsBound(e) && e.operator.Between?
    ensures
      Tokens(backend, e) + rest
      == LeafTokens(backend, e.arguments[0])
         + ([Keyword("BETWEEN")]
            + (LeafTokens(backend, e.arguments[1]) + [Keyword("AND")] + LeafTokens(backend, e.arguments[2]) + rest))
  {
  }

  lemma {:induction false} RangeReads(keywords: bool, backend: Backend, e: CheckExpression, range: seq<Token>,
                                      rest: seq<Token>)
    requires IsBound(e) && e.operator.Between?
    requires range == LeafTokens(backend, e.arguments[1]) + [Keyword("AND")] + LeafTokens(backend, e.arguments[2]) + rest
    ensures AfterOperand(keywords, e.arguments[0], [Keyword("BETWEEN")] + range) == Ok(e, rest)
  {
    var args := e.arguments;
    AfterBetween(keywords, args[0], range);
    RangeParses(keywords, backend, args[0], args[1], args[2], rest);
    assert [args[0], args[1], args[2]] == args;
  }

  lemma {:induction false} RangeAtom(keywords: bool, backend: Backend, e: CheckExpression, rest: seq<Token>)
    requires IsBound(e) && e.operator.Between?
    ensures Comparison(keywords, Tokens(backend, e) + rest) == Ok(e, rest)
  {
    var args := e.arguments;
    RangeShape(backend, e, rest);
    var range := LeafTokens(backend, args[1]) + [Keyword("AND")] + LeafTokens(backend, args[2]) + rest;
    LeafStart(keywords, backend, args[0], [Keyword("BETWEEN")] + range);
    RangeReads(keywords, backend, e, range, rest);
    AtomParses(keywords, Tokens(backend, e) + rest, LeafTokens(backend, args[0]), [Keyword("BETWEEN")] + range,
               args[0], e, rest);
  }

  lemma {:induction false} ComparisonShape(backend: Backend, e: CheckExpression, rest: seq<Token>)
    requires IsBound(e) && IsComparison(e.operator)
    ensures Tokens(backend, e) + rest
            == LeafTokens(backend, e.arguments[0])
               + ([Punctuation(ComparisonSql(e.operator))] + (LeafTokens(backend, e.arguments[1]) + rest))
  {
  }

  lemma {:induction false} ComparisonAtom(keywords: bool, backend: Backend, e: CheckExpression, rest: seq<Token>)
    requires IsBound(e) && IsComparison(e.operator)
    ensures Comparison(keywords, Tokens(backend, e) + rest) == Ok(e, rest)
  {
    var args := e.arguments;
    var left := LeafTokens(backend, args[0]);
    var right := LeafTokens(backend, args[1]) + rest;
    var tail := [Punctuation(ComparisonSql(e.operator))] + right;
    ComparisonShape(backend, e, rest);
    LeafStart(keywords, backend, args[0], tail);
    OperandLeaf(keywords, backend, args[1], rest);
    AfterComparison(keywords, e.operator, args[0], right);
    assert [args[0], args[1]] == args;
    AtomParses(keywords, Tokens(backend, e) + rest, left, tail, args[0], e, rest);
  }

  // ----- connectives -----

  /** Where a complete condition may end. */
  predicate Closes(ts: seq<Token>) {
    ts == [] || ts[0] == Punctuation(")")
  }

  /** A parenthesized condition followed by something that stops it is one comparison. */
  lemma {:induction false} GroupParses(keywords: bool, inner: seq<Token>, e: CheckExpression, rest: seq<Token>)
    requires Chain(keywords, Or, inner + ([Punctuation(")")] + rest)) == Ok(e, [Punctuation(")")] + rest)
    requires Stops(rest)
    ensures Comparison(keywords, [Punctuation("(")] + inner + [Punctuation(")")] + rest) == Ok(e, rest)
  {
    var ts := [Punctuation("(")] + inner + [Punctuation(")")] + rest;
    UpperFixed("(");
    UpperFixed(")");
    assert ts[0] == Punctuation("(");
    assert ts[1..] == inner + ([Punctuation(")")] + rest);
    assert ([Punctuation(")")] + rest)[1..] == rest;
    StopsHere(keywords, e, rest);
  }

  lemma {:induction false} TailStops(keywords: bool, op: Operator, e: CheckExpression, rest: seq<Token>)
    requires op.And? || op.Or?
    requires Closes(rest) || (op.And? && rest != [] && rest[0] == Keyword("OR"))
    ensures ChainTail(keywords, op, e, rest) == Ok(e, rest)
  {
    if rest != [] {
      UpperFixed(rest[0].text);
    }
  }

  lemma {:induction false} SingleParses(keywords: bool, ts: seq<Token>, e: CheckExpression, rest: seq<Token>)
    requires Comparison(keywords, ts) == Ok(e, rest) && Closes(rest)
    ensures Chain(keywords, Or, ts) == Ok(e, rest)
  {
    TailStops(keywords, And, e, rest);
    TailStops(keywords, Or, e, rest);
    assert Chain(keywords, And, ts) == Ok(e, rest);
  }

  lemma {:induction false} PairParses(keywords: bool, op: Operator, ts: seq<Token>, a: CheckExpression, next: seq<Token>,
                   b: CheckExpression, rest: seq<Token>)
    requires op.And? || op.Or?
    requires Comparison(keywords, ts) == Ok(a, [Keyword(OperatorWord(op))] + next)
    requires Comparison(keywords, next) == Ok(b, rest) && Closes(rest)
    ensures Chain(keywords, Or, ts) == Ok(Node(op, [a, b]), rest)
  {
    var word := OperatorWord(op);
    var joined := [Keyword(word)] + next;
    UpperFixed(word);
    assert joined[0] == Keyword(word) && joined[1..] == next;
    if op.And? {
      TailStops(keywords, And, Node(And, [a, b]), rest);
      assert ChainTail(keywords, And, a, joined) == Ok(Node(And, [a, b]), rest);
      assert Chain(keywords, And, ts) == Ok(Node(And, [a, b]), rest);
      TailStops(keywords, Or, Node(And, [a, b]), rest);
    } else {
      TailStops(keywords, And, a, joined);
      assert Chain(keywords, And, ts) == Ok(a, joined);
      TailStops(keywords, And, b, rest);
      assert Chain(keywords, And, next) == Ok(b, rest);
      TailStops(keywords, Or, Node(Or, [a, b]), rest);
      assert ChainTail(keywords, Or, a, joined) == Ok(Node(Or, [a, b]), rest);
    }
  }

  lemma {:induction false} NegationParses(keywords: bool, ts: seq<Token>, e: CheckExpression, rest: seq<Token>)
    requires Comparison(keywords, ts) == Ok(e, rest)
    ensures Comparison(keywords, [Keyword("NOT")] + ts) == Ok(Node(Not, [e]), rest)
  {
    UpperFixed("NOT");
    var all := [Keyword("NOT")] + ts;
    assert all[0] == Keyword("NOT") && all[1..] == ts;
  }

  lemma {:induction false} NegationShape(backend: Backend, e: CheckExpression, rest: seq<Token>)
    requires IsBound(e) && e.operator.Not?
    ensures Tokens(backend, e) + rest
            == [Keyword("NOT")]
               + ([Punctuation("(")] + Tokens(backend, e.arguments[0]) + [Punctuation(")")] + rest)
  {
  }

  lemma {:induction false} NegationNode(keywords: bool, backend: Backend, e: CheckExpression, rest: seq<Token>)
    requires IsBound(e) && e.operator.Not? && Closes(rest)
    requires Chain(keywords, Or, Tokens(backend, e.arguments[0]) + ([Punctuation(")")] + rest))
             == Ok(e.arguments[0], [Punctuation(")")] + rest)
    ensures Chain(keywords, Or, Tokens(backend, e) + rest) == Ok(e, rest)
  {
    var child := Tokens(backend, e.arguments[0]);
    GroupParses(keywords, child, e.arguments[0], rest);
    NegationParses(keywords, [Punctuation("(")] + child + [Punctuation(")")] + rest, e.arguments[0], rest);
    NegationShape(backend, e, rest);
    SingleParses(keywords, Tokens(backend, e) + rest, Node(Not, [e.arguments[0]]), rest);
    assert e == Node(Not, [e.arguments[0]]);
  }

  /** The operator and the parenthesized right side of a rendered pair. */
  function PairTail(backend: Backend, e: CheckExpression, rest: seq<Token>): seq<Token>
    requires IsBound(e) && (e.operator.And? || e.operator.Or?)
  {
    [Keyword(OperatorWord(e.operator))]
    + ([Punctuation("(")] + Tokens(backend, e.arguments[1]) + [Punctuation(")")] + rest)
  }

  lemma {:induction false} PairShape(backend: Backend, e: CheckExpression, rest: seq<Token>)
    requires IsBound(e) && (e.operator.And? || e.operator.Or?)
    ensures Tokens(backend, e) + rest
            == [Punctuation("(")] + Tokens(backend, e.arguments[0]) + [Punctuation(")")] + PairTail(backend, e, rest)
  {
  }

  lemma {:induction false} PairGroups(keywords: bool, op: Operator, ts: seq<Token>, left: seq<Token>, a: CheckExpression,
                                      right: seq<Token>, b: CheckExpression, rest: seq<Token>)
    requires (op.And? || op.Or?) && Closes(rest)
    requires
      var tail := [Keyword(OperatorWord(op))] + ([Punctuation("(")] + right + [Punctuation(")")] + rest);
      && ts == [Punctuation("(")] + left + [Punctuation(")")] + tail
      && Chain(keywords, Or, left + ([Punctuation(")")] + tail)) == Ok(a, [Punctuation(")")] + tail)
    requires Chain(keywords, Or, right + ([Punctuation(")")] + rest)) == Ok(b, [Punctuation(")")] + rest)
    ensures Chain(keywords, Or, ts) == Ok(Node(op, [a, b]), rest)
  {
    var next := [Punctuation("(")] + right + [Punctuation(")")] + rest;
    GroupParses(keywords, right, b, rest);
    WordStops(op, next);
    GroupParses(keywords, left, a, [Keyword(OperatorWord(op))] + next);
    PairParses(keywords, op, ts, a, next, b, rest);
  }

  lemma WordStops(op: Operator, next: seq<Token>)
    requires op.And? || op.Or?
    ensures Stops([Keyword(OperatorWord(op))] + next)
  {
  }

  lemma {:induction false} PairNode(keywords: bool, backend: Backend, e: CheckExpression, rest: seq<Token>)
    requires IsBound(e) && (e.operator.And? || e.operator.Or?) && Closes(rest)
    requires
      var joined := [Punctuation(")")] + PairTail(backend, e, rest);
      Chain(keywords, Or, Tokens(backend, e.arguments[0]) + joined) == Ok(e.arguments[0], joined)
    requires Chain(keywords, Or, Tokens(backend, e.arguments[1]) + ([Punctuation(")")] + rest))
             == Ok(e.arguments[1], [Punctuation(")")] + rest)
    ensures Chain(keywords, Or, Tokens(backend, e) + rest) == Ok(e, rest)
  {
    PairShape(backend, e, rest);
    PairGroups(keywords, e.operator, Tokens(backend, e) + rest, Tokens(backend, e.arguments[0]), e.arguments[0],
               Tokens(backend, e.arguments[1]), e.arguments[1], rest);
    assert e == Node(e.operator, [e.arguments[0], e.arguments[1]]);
  }

  /** The parser reads back exactly the rendered tree, leaving the tokens that follow it. */
  lemma {:induction false} TokensParse(keywords: bool, backend: Backend, e: CheckExpression, rest: seq<Token>)
    requires IsBound(e) && Closes(rest)
    ensures Chain(keywords, Or, Tokens(backend, e) + rest) == Ok(e, rest)
    decreases e
  {
    if IsAtomic(e) {
      AtomicParses(keywords, backend, e, rest);
      SingleParses(keywords, Tokens(backend, e) + rest, e, rest);
    } else if e.operator.Not? {
      TokensParse(keywords, backend, e.arguments[0], [Punctuation(")")] + rest);
      NegationNode(keywords, backend, e, rest);
    } else {
      TokensParse(keywords, backend, e.arguments[0], [Punctuation(")")] + PairTail(backend, e, rest));
      TokensParse(keywords, backend, e.arguments[1], [Punctuation(")")] + rest);
      PairNode(keywords, backend, e, rest);
    }
  }
}
