/** Scanning the definitions of a CREATE TABLE for CHECKs, one stretch of tokens after another. */
module TableScan {
  import opened TextCodec
  import opened CheckTree
  import opened CheckLexer
  import opened CheckParser
  import opened CheckRender
  import opened CheckCatalog
  import opened TokenBalance

  // ----- stretches without a CHECK -----

  /** Scanning from `p`, `depth` parentheses inside the table's own, is scanning from `q` at its level. */
  ghost predicate Passes(read: BodyReader, ts: seq<Token>, p: nat, depth: int, q: nat) {
    forall rest {:trigger Appended([], rest)} :: rest == ScanChecks(read, ts, q, 1) ==> ScanChecks(read, ts, p, 1 + depth) == rest
  }

  lemma PassesHere(read: BodyReader, ts: seq<Token>, p: nat)
    ensures Passes(read, ts, p, 0, p)
  {
  }

  lemma PassesOpen(read: BodyReader, ts: seq<Token>, p: nat, depth: nat, q: nat)
    requires p < |ts| && ts[p] == Punctuation("(") && Passes(read, ts, p + 1, depth + 1, q)
    ensures Passes(read, ts, p, depth, q)
  {
    var rest := ScanChecks(read, ts, q, 1);
    assert Appended([], rest) == Appended([], rest);
    assert ScanChecks(read, ts, p, 1 + depth) == ScanChecks(read, ts, p + 1, 1 + (depth + 1));
  }

  lemma PassesClose(read: BodyReader, ts: seq<Token>, p: nat, depth: nat, q: nat)
    requires p < |ts| && ts[p] == Punctuation(")") && depth > 0 && Passes(read, ts, p + 1, depth - 1, q)
    ensures Passes(read, ts, p, depth, q)
  {
    var rest := ScanChecks(read, ts, q, 1);
    assert Appended([], rest) == Appended([], rest);
    assert ScanChecks(read, ts, p, 1 + depth) == ScanChecks(read, ts, p + 1, 1 + (depth - 1));
  }

  lemma PassesOther(read: BodyReader, ts: seq<Token>, p: nat, depth: nat, q: nat)
    requires p < |ts| && Unnested(ts[p]) && !(depth == 0 && IsWord(ts[p], "CHECK")) && Passes(read, ts, p + 1, depth, q)
    ensures Passes(read, ts, p, depth, q)
  {
    var rest := ScanChecks(read, ts, q, 1);
    assert Appended([], rest) == Appended([], rest);
    assert ScanChecks(read, ts, p, 1 + depth) == ScanChecks(read, ts, p + 1, 1 + depth);
  }

  /** Quiet tokens contribute nothing. */
  lemma {:induction false} QuietScan(read: BodyReader, ts: seq<Token>, p: nat, x: seq<Token>, depth: nat)
    requires At(ts, p, x) && Quiet(x, depth)
    ensures Passes(read, ts, p, depth, p + |x|)
    decreases |x|
  {
    if x == [] {
      PassesHere(read, ts, p);
    } else {
      AtTail(ts, p, x);
      if x[0] == Punctuation("(") {
        QuietScan(read, ts, p + 1, x[1..], depth + 1);
        PassesOpen(read, ts, p, depth, p + |x|);
      } else if x[0] == Punctuation(")") {
        QuietScan(read, ts, p + 1, x[1..], depth - 1);
        PassesClose(read, ts, p, depth, p + |x|);
      } else {
        QuietScan(read, ts, p + 1, x[1..], depth);
        PassesOther(read, ts, p, depth, p + |x|);
      }
    }
  }

  // ----- stretches and what they declare -----

  /** At table level the tokens from `p` to `q` declare exactly these CHECKs. */
  ghost predicate Yields(read: BodyReader, ts: seq<Token>, p: nat, q: nat, own: seq<CheckShape>) {
    forall rest {:trigger Appended(own, rest)} ::
      rest == ScanChecks(read, ts, q, 1) ==> ScanChecks(read, ts, p, 1) == Appended(own, rest)
  }

  lemma YieldsNothing(read: BodyReader, ts: seq<Token>, p: nat, q: nat)
    requires Passes(read, ts, p, 0, q)
    ensures Yields(read, ts, p, q, [])
  {
    AppendedNothing(ScanChecks(read, ts, q, 1));
  }

  lemma AppendedTwice(a: seq<CheckShape>, b: seq<CheckShape>, rest: Option<seq<CheckShape>>)
    ensures Appended(a, Appended(b, rest)) == Appended(a + b, rest)
  {
    if rest.Some? {
      assert a + (b + rest.value) == a + b + rest.value;
    }
  }

  lemma YieldsThen(read: BodyReader, ts: seq<Token>, p: nat, q: nat, r: nat, a: seq<CheckShape>, b: seq<CheckShape>)
    requires Yields(read, ts, p, q, a) && Yields(read, ts, q, r, b)
    ensures Yields(read, ts, p, r, a + b)
  {
    var rest := ScanChecks(read, ts, r, 1);
    assert ScanChecks(read, ts, q, 1) == Appended(b, rest);
    assert ScanChecks(read, ts, p, 1) == Appended(a, Appended(b, rest));
    AppendedTwice(a, b, rest);
  }

  lemma {:induction false} QuietDefinition(read: BodyReader, ts: seq<Token>, p: nat, tokens: seq<Token>)
    requires Quiet(tokens, 0) && At(ts, p, tokens)
    ensures Yields(read, ts, p, p + |tokens|, [])
  {
    QuietScan(read, ts, p, tokens, 0);
    YieldsNothing(read, ts, p, p + |tokens|);
  }

  lemma ScanComma(read: BodyReader, ts: seq<Token>, p: nat)
    requires p < |ts| && ts[p] == Punctuation(",")
    ensures Yields(read, ts, p, p + 1, [])
  {
    PassesHere(read, ts, p + 1);
    PassesOther(read, ts, p, 0, p + 1);
    YieldsNothing(read, ts, p, p + 1);
  }

  // ----- a named CHECK -----

  lemma {:induction false} BalancedClosing(ts: seq<Token>, p: nat, x: seq<Token>, depth: nat)
    requires At(ts, p, x) && Balanced(x, depth)
    requires p + |x| < |ts| && ts[p + |x|] == Punctuation(")")
    ensures ClosingAt(ts, p, 1 + depth) == Some(p + |x|)
    decreases |x|
  {
    if x != [] {
      AtTail(ts, p, x);
      if x[0] == Punctuation("(") {
        BalancedClosing(ts, p + 1, x[1..], depth + 1);
      } else if x[0] == Punctuation(")") {
        BalancedClosing(ts, p + 1, x[1..], depth - 1);
      } else {
        BalancedClosing(ts, p + 1, x[1..], depth);
      }
    }
  }

  lemma CheckWords()
    ensures Upper("CONSTRAINT") == "CONSTRAINT" && Upper("CHECK") == "CHECK"
    ensures "CONSTRAINT" != "CHECK"
  {
    assert |"CONSTRAINT"| != |"CHECK"|;
  }

  lemma CheckHere(read: BodyReader, ts: seq<Token>, p: nat, name: string, closing: nat, expression: Option<CheckExpression>)
    requires 2 <= p && p + 2 <= closing < |ts|
    requires ts[p - 2] == Keyword("CONSTRAINT") && ts[p - 1] == Token(Identifier, name)
    requires ts[p] == Keyword("CHECK") && ts[p + 1] == Punctuation("(")
    requires ClosingAt(ts, p + 2, 1) == Some(closing) && read(ts[p + 2..closing]) == expression
    ensures Yields(read, ts, p, closing + 1, [CheckShape(Some(name), expression)])
  {
    CheckWords();
    var shape, rest := CheckShape(Some(name), expression), ScanChecks(read, ts, closing + 1, 1);
    assert CheckName(ts, p) == Some(name);
    assert ScanChecks(read, ts, p, 1) == After(shape, rest);
    assert Appended([shape], rest) == After(shape, rest);
  }

  lemma NameHere(read: BodyReader, ts: seq<Token>, p: nat, name: string)
    requires p + 2 <= |ts| && ts[p] == Keyword("CONSTRAINT") && ts[p + 1] == Token(Identifier, name)
    ensures Yields(read, ts, p, p + 2, [])
  {
    CheckWords();
    PassesHere(read, ts, p + 2);
    PassesOther(read, ts, p + 1, 0, p + 2);
    PassesOther(read, ts, p, 0, p + 2);
    YieldsNothing(read, ts, p, p + 2);
  }

  lemma NamedLayout(ts: seq<Token>, p: nat, name: string, body: seq<Token>)
    requires At(ts, p, [Keyword("CONSTRAINT"), Token(Identifier, name), Keyword("CHECK"), Punctuation("(")]
                       + (body + [Punctuation(")")]))
    ensures p + 4 + |body| < |ts|
    ensures ts[p] == Keyword("CONSTRAINT") && ts[p + 1] == Token(Identifier, name)
    ensures ts[p + 2] == Keyword("CHECK") && ts[p + 3] == Punctuation("(")
    ensures At(ts, p + 4, body) && ts[p + 4 + |body|] == Punctuation(")")
  {
    var head := [Keyword("CONSTRAINT"), Token(Identifier, name), Keyword("CHECK"), Punctuation("(")];
    AtConcat(ts, p, head, body + [Punctuation(")")]);
    AtConcat(ts, p + 4, body, [Punctuation(")")]);
    assert head[0] == ts[p] && head[1] == ts[p + 1] && head[2] == ts[p + 2] && head[3] == ts[p + 3];
    AtTail(ts, p + 4 + |body|, [Punctuation(")")]);
  }

  lemma NamedParts(read: BodyReader, ts: seq<Token>, p: nat, name: string, closing: nat, expression: CheckExpression)
    requires p + 4 <= closing < |ts|
    requires ts[p] == Keyword("CONSTRAINT") && ts[p + 1] == Token(Identifier, name)
    requires ts[p + 2] == Keyword("CHECK") && ts[p + 3] == Punctuation("(")
    requires ClosingAt(ts, p + 4, 1) == Some(closing) && read(ts[p + 4..closing]) == Some(expression)
    ensures Yields(read, ts, p, closing + 1, [CheckShape(Some(name), Some(expression))])
  {
    var shapes := [CheckShape(Some(name), Some(expression))];
    NameHere(read, ts, p, name);
    CheckHere(read, ts, p + 2, name, closing, Some(expression));
    YieldsThen(read, ts, p, p + 2, closing + 1, [], shapes);
    assert [] + shapes == shapes;
  }

  lemma {:induction false} BodyHere(ts: seq<Token>, p: nat, body: seq<Token>)
    requires At(ts, p, body) && Balanced(body, 0) && p + |body| < |ts| && ts[p + |body|] == Punctuation(")")
    ensures ClosingAt(ts, p, 1) == Some(p + |body|) && ts[p..p + |body|] == body
  {
    BalancedClosing(ts, p, body, 0);
    AtSlice(ts, p, body);
  }

  /** A named CHECK declares its name and the tree its body is read as. */
  lemma {:induction false} NamedBody(read: BodyReader, ts: seq<Token>, p: nat, name: string, body: seq<Token>, expression: CheckExpression)
    requires At(ts, p, [Keyword("CONSTRAINT"), Token(Identifier, name), Keyword("CHECK"), Punctuation("(")]
                       + (body + [Punctuation(")")]))
    requires Balanced(body, 0) && read(body) == Some(expression)
    ensures Yields(read, ts, p, p + 4 + |body| + 1, [CheckShape(Some(name), Some(expression))])
  {
    NamedLayout(ts, p, name, body);
    BodyHere(ts, p + 4, body);
    NamedParts(read, ts, p, name, p + 4 + |body|, expression);
  }
}
