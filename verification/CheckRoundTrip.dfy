/** Tokenizing a rendered CHECK gives exactly the tokens of its tree. */
module CheckRoundTrip {
  import opened TextCodec
  import opened CheckTree
  import opened CheckLexer
  import opened CheckParser
  import opened CheckRender

  // ----- tokenizing a rendering -----

  /** In front of `rest`, the text reads as exactly these tokens. */
  ghost predicate Lexes(reader: Reader, text: string, tokens: seq<Token>, rest: string) {
    Lex(reader, text + rest) == Prepend(tokens, Lex(reader, rest))
  }

  predicate BreaksWord(rest: string) {
    rest == [] || rest[0] in " (),'"
  }

  predicate PlainWord(w: string) {
    && w != []
    && ('a' <= w[0] <= 'z' || 'A' <= w[0] <= 'Z')
    && forall i :: 0 <= i < |w| ==> 'a' <= w[i] <= 'z' || 'A' <= w[i] <= 'Z' || IsDigit(w[i])
  }

  // One lexeme at a time.

  lemma BlankLexes(reader: Reader, rest: string)
    ensures Lexes(reader, " ", [], rest)
  {
    assert (" " + rest)[1..] == rest;
    if Lex(reader, rest).Some? {
      assert [] + Lex(reader, rest).value == Lex(reader, rest).value;
    }
  }

  lemma FrontIsToken(reader: Reader, s: string)
    requires s != [] && !IsSpace(s[0]) && s[0] != '/' && (s[0] == '-' ==> |s| >= 2 && s[1] != '-')
    ensures FrontOf(reader, s) == AtToken
  {
  }

  /** A token that starts neither a blank nor a comment. */
  lemma LexOne(reader: Reader, text: string, token: Token, rest: string)
    requires text != [] && !IsSpace(text[0]) && text[0] != '/'
    requires text[0] == '-' ==> |text| == 1 && rest != [] && rest[0] != '-'
    requires NextToken(reader.alphabet, text + rest) == Some((token, |text|))
    ensures Lexes(reader, text, [token], rest)
  {
    var s := text + rest;
    assert s[|text|..] == rest;
    FrontIsToken(reader, s);
    LexFront(reader, s, token, |text|);
  }

  lemma MarkLexes(reader: Reader, c: char, rest: string)
    requires c in "(),"
    ensures Lexes(reader, [c], [Punctuation([c])], rest)
  {
    var s := [c] + rest;
    assert s[..1] == [c];
    if |s| >= 2 {
      assert s[..2][0] == c;
    }
    LexOne(reader, [c], Punctuation([c]), rest);
  }

  lemma {:induction false} WordRunPlain(u: Alphabet, w: string, rest: string)
    requires forall i :: 0 <= i < |w| ==> ContinuesWord(u, w[i])
    requires BreaksWord(rest)
    ensures WordRun(u, w + rest) == |w|
  {
    if w == [] {
      assert w + rest == rest;
    } else {
      assert (w + rest)[1..] == w[1..] + rest;
      WordRunPlain(u, w[1..], rest);
    }
  }

  lemma NameLexes(reader: Reader, w: string, rest: string)
    requires PlainWord(w) && BreaksWord(rest)
    ensures Lexes(reader, w, [Keyword(w)], rest)
  {
    var s := w + rest;
    assert s[1..] == w[1..] + rest;
    WordRunPlain(reader.alphabet, w[1..], rest);
    assert s[..|w|] == w;
    LexOne(reader, w, Keyword(w), rest);
  }

  lemma {:induction false} QuotedStep(q: char, c: char, tail: string)
    ensures Quoted(q, true, (if c == q then [q, q] else [c]) + tail)
            == AfterQuoted([c], if c == q then 2 else 1, Quoted(q, true, tail))
  {
    if c == q {
      assert ([q, q] + tail)[2..] == tail;
    } else {
      assert ([c] + tail)[1..] == tail;
    }
  }

  lemma {:induction false} DoubledStep(q: char, text: string, rest: string)
    requires text != []
    ensures Doubled(q, text) + [q] + rest
            == (if text[0] == q then [q, q] else [text[0]]) + (Doubled(q, text[1..]) + [q] + rest)
  {
  }

  lemma {:induction false} QuotedDoubled(q: char, text: string, rest: string)
    requires rest == [] || rest[0] != q
    ensures Quoted(q, true, Doubled(q, text) + [q] + rest) == Some((text, |Doubled(q, text)| + 1))
  {
    if text == [] {
      var s := [q] + rest;
      assert Doubled(q, text) + [q] + rest == s;
      assert s[1..] == rest;
    } else {
      QuotedDoubled(q, text[1..], rest);
      DoubledStep(q, text, rest);
      var tail := Doubled(q, text[1..]) + [q] + rest;
      QuotedStep(q, text[0], tail);
      assert [text[0]] + text[1..] == text;
    }
  }

  lemma {:induction false} EnclosedToken(u: Alphabet, q: char, s: string, text: string, width: nat)
    requires q in "'\"`" && s != [] && s[0] == q && Quoted(q, true, s[1..]) == Some((text, width))
    ensures NextToken(u, s) == Some((Token(QuoteKind(q), text), 1 + width))
  {
  }

  lemma EnclosedLexes(reader: Reader, q: char, text: string, rest: string)
    requires q in "'\"`" && (rest == [] || rest[0] != q)
    ensures Lexes(reader, Enclosed(q, text), [Token(QuoteKind(q), text)], rest)
  {
    QuotedDoubled(q, text, rest);
    var whole := Enclosed(q, text);
    var s := whole + rest;
    assert s[1..] == Doubled(q, text) + [q] + rest;
    EnclosedToken(reader.alphabet, q, s, text, |Doubled(q, text)| + 1);
    LexOne(reader, whole, Token(QuoteKind(q), text), rest);
  }

  lemma {:induction false} DigitRunPlain(d: string, rest: string)
    requires forall i :: 0 <= i < |d| ==> IsDigit(d[i])
    requires rest == [] || !IsDigit(rest[0])
    ensures DigitRun(d + rest) == |d|
  {
    if d == [] {
      assert d + rest == rest;
    } else {
      assert (d + rest)[1..] == d[1..] + rest;
      DigitRunPlain(d[1..], rest);
    }
  }

  lemma NumberLexes(reader: Reader, d: string, rest: string)
    requires d != [] && forall i :: 0 <= i < |d| ==> IsDigit(d[i])
    requires rest == [] || !IsDigit(rest[0])
    ensures Lexes(reader, d, [Token(Number, d)], rest)
  {
    var s := d + rest;
    assert s[1..] == d[1..] + rest;
    DigitRunPlain(d[1..], rest);
    assert s[..|d|] == d;
    LexOne(reader, d, Token(Number, d), rest);
  }

  lemma ComparisonLexes(reader: Reader, op: Operator, rest: string)
    requires IsComparison(op) && rest != [] && rest[0] == ' '
    ensures Lexes(reader, ComparisonSql(op), [Punctuation(ComparisonSql(op))], rest)
  {
    var c := ComparisonSql(op);
    var s := c + rest;
    assert s[..|c|] == c;
    assert s[..2] == [s[0], s[1]];
    LexOne(reader, c, Punctuation(c), rest);
  }

  // ----- composing pieces, forgetting the text that follows -----

  function First(b: string, next: Option<char>): Option<char> {
    if b == [] then next else Some(b[0])
  }

  /** Whatever text follows, as long as it starts with `next`, these are the tokens. */
  ghost predicate Reads(text: string, tokens: seq<Token>, next: Option<char>) {
    forall reader, rest :: First(rest, None) == next ==> Lexes(reader, text, tokens, rest)
  }

  lemma Compose(a: string, ta: seq<Token>, b: string, tb: seq<Token>, next: Option<char>)
    requires Reads(a, ta, First(b, next)) && Reads(b, tb, next)
    ensures Reads(a + b, ta + tb, next)
  {
    forall reader, rest | First(rest, None) == next ensures Lexes(reader, a + b, ta + tb, rest) {
      assert Lexes(reader, b, tb, rest);
      assert Lexes(reader, a, ta, b + rest);
      assert a + b + rest == a + (b + rest);
      if Lex(reader, rest).Some? {
        var more := Lex(reader, rest).value;
        assert ta + tb + more == ta + (tb + more);
      }
    }
  }

  /** A rendered expression is followed by nothing, or by one of these. */
  predicate Ends(next: Option<char>) {
    next.None? || next.value in " ),"
  }

  predicate BreaksName(next: Option<char>) {
    next.None? || next.value in " (),'"
  }

  lemma LexBlank(next: Option<char>)
    ensures Reads(" ", [], next)
  {
    forall reader, rest | First(rest, None) == next ensures Lexes(reader, " ", [], rest) {
      BlankLexes(reader, rest);
    }
  }

  lemma LexMark(c: char, next: Option<char>)
    requires c in "(),"
    ensures Reads([c], [Punctuation([c])], next)
  {
    forall reader, rest | First(rest, None) == next ensures Lexes(reader, [c], [Punctuation([c])], rest) {
      MarkLexes(reader, c, rest);
    }
  }

  lemma LexName(w: string, next: Option<char>)
    requires PlainWord(w) && BreaksName(next)
    ensures Reads(w, [Keyword(w)], next)
  {
    forall reader, rest | First(rest, None) == next ensures Lexes(reader, w, [Keyword(w)], rest) {
      NameLexes(reader, w, rest);
    }
  }

  lemma LexEnclosed(q: char, text: string, next: Option<char>)
    requires q in "'\"`" && next != Some(q)
    ensures Reads(Enclosed(q, text), [Token(QuoteKind(q), text)], next)
  {
    forall reader, rest | First(rest, None) == next
      ensures Lexes(reader, Enclosed(q, text), [Token(QuoteKind(q), text)], rest)
    {
      EnclosedLexes(reader, q, text, rest);
    }
  }

  lemma LexNumber(d: string, next: Option<char>)
    requires d != [] && forall i :: 0 <= i < |d| ==> IsDigit(d[i])
    requires next.Some? ==> !IsDigit(next.value)
    ensures Reads(d, [Token(Number, d)], next)
  {
    forall reader, rest | First(rest, None) == next ensures Lexes(reader, d, [Token(Number, d)], rest) {
      NumberLexes(reader, d, rest);
    }
  }

  lemma LexMinus(next: Option<char>)
    requires next.Some? && IsDigit(next.value)
    ensures Reads("-", [Punctuation("-")], next)
  {
    forall reader, rest | First(rest, None) == next ensures Lexes(reader, "-", [Punctuation("-")], rest) {
      var s := "-" + rest;
      assert s[..1] == "-";
      assert s[..2] == ['-', rest[0]];
      LexOne(reader, "-", Punctuation("-"), rest);
    }
  }

  lemma LexComparison(op: Operator)
    requires IsComparison(op)
    ensures Reads(ComparisonSql(op), [Punctuation(ComparisonSql(op))], Some(' '))
  {
    forall reader, rest | First(rest, None) == Some(' ')
      ensures Lexes(reader, ComparisonSql(op), [Punctuation(ComparisonSql(op))], rest)
    {
      ComparisonLexes(reader, op, rest);
    }
  }

  // Pieces of fixed text around words.

  lemma LexSpacedName(w: string, next: Option<char>)
    requires PlainWord(w) && BreaksName(next)
    ensures Reads(" " + w, [Keyword(w)], next)
  {
    LexBlank(Some(w[0]));
    LexName(w, next);
    Compose(" ", [], w, [Keyword(w)], next);
    assert [] + [Keyword(w)] == [Keyword(w)];
  }

  lemma LexPaddedName(w: string, next: Option<char>)
    requires PlainWord(w)
    ensures Reads(" " + w + " ", [Keyword(w)], next)
  {
    LexSpacedName(w, Some(' '));
    LexBlank(next);
    Compose(" " + w, [Keyword(w)], " ", [], next);
    assert [Keyword(w)] + [] == [Keyword(w)];
  }

  lemma LexTwoNames(v: string, w: string, next: Option<char>)
    requires PlainWord(v) && PlainWord(w) && BreaksName(next)
    ensures Reads(" " + v + (" " + w), [Keyword(v), Keyword(w)], next)
  {
    LexSpacedName(v, Some(' '));
    LexSpacedName(w, next);
    Compose(" " + v, [Keyword(v)], " " + w, [Keyword(w)], next);
    assert [Keyword(v)] + [Keyword(w)] == [Keyword(v), Keyword(w)];
  }

  lemma LexNameOpen(w: string, next: Option<char>)
    requires PlainWord(w)
    ensures Reads(w + " (", [Keyword(w), Punctuation("(")], next)
  {
    LexName(w, Some(' '));
    LexBlank(Some('('));
    LexMark('(', next);
    Compose(" ", [], "(", [Punctuation("(")], next);
    assert " " + "(" == " (" && [] + [Punctuation("(")] == [Punctuation("(")];
    Compose(w, [Keyword(w)], " (", [Punctuation("(")], next);
    assert [Keyword(w)] + [Punctuation("(")] == [Keyword(w), Punctuation("(")];
  }

  lemma LexSpacedNameOpen(w: string, next: Option<char>)
    requires PlainWord(w)
    ensures Reads(" " + (w + " ("), [Keyword(w), Punctuation("(")], next)
  {
    LexBlank(Some(w[0]));
    LexNameOpen(w, next);
    Compose(" ", [], w + " (", [Keyword(w), Punctuation("(")], next);
    assert [] + [Keyword(w), Punctuation("(")] == [Keyword(w), Punctuation("(")];
  }

  /** The `) AND (` between two parenthesized conditions. */
  lemma LexJoint(w: string, next: Option<char>)
    requires PlainWord(w)
    ensures Reads(") " + w + " (", [Punctuation(")"), Keyword(w), Punctuation("(")], next)
  {
    LexMark(')', Some(' '));
    LexSpacedNameOpen(w, next);
    Compose(")", [Punctuation(")")], " " + (w + " ("), [Keyword(w), Punctuation("(")], next);
    assert ")" + (" " + (w + " (")) == ") " + w + " (";
    assert [Punctuation(")")] + [Keyword(w), Punctuation("(")]
        == [Punctuation(")"), Keyword(w), Punctuation("(")];
  }

  lemma LexNameClose(w: string, next: Option<char>)
    requires PlainWord(w)
    ensures Reads(" " + w + ")", [Keyword(w), Punctuation(")")], next)
  {
    LexSpacedName(w, Some(')'));
    LexMark(')', next);
    Compose(" " + w, [Keyword(w)], ")", [Punctuation(")")], next);
    assert [Keyword(w)] + [Punctuation(")")] == [Keyword(w), Punctuation(")")];
  }

  // ----- leaves -----

  lemma LexInteger(n: int, next: Option<char>)
    requires next.Some? ==> !IsDigit(next.value)
    ensures Reads(RenderInteger(n), IntegerTokens(n), next)
  {
    if n < 0 {
      var d := Decimal(-n);
      LexMinus(Some(d[0]));
      LexNumber(d, next);
      Compose("-", [Punctuation("-")], d, [Token(Number, d)], next);
      assert [Punctuation("-")] + [Token(Number, d)] == IntegerTokens(n);
    } else {
      LexNumber(Decimal(n), next);
    }
  }

  /** `NAME(X'..' WORD type)`. */
  lemma LexHexCall(name: string, hex: string, word: string, target: string, next: Option<char>)
    requires PlainWord(name) && PlainWord(word) && PlainWord(target)
    requires forall i :: 0 <= i < |hex| ==> HexValue(hex[i]).Some?
    ensures Reads(name + "(X'" + hex + "' " + word + " " + target + ")",
                  [Keyword(name), Punctuation("("), Keyword("X"), Token(LiteralText, hex),
                   Keyword(word), Keyword(target), Punctuation(")")], next)
  {
    var q := Enclosed('\'', hex);
    assert forall i :: 0 <= i < |hex| ==> HexValue(hex[i]).Some? && hex[i] != '\'';
    Undoubled('\'', hex);
    LexSpacedName(word, Some(' '));
    LexNameClose(target, next);
    var end := " " + word + (" " + target + ")");
    var endTokens := [Keyword(word)] + [Keyword(target), Punctuation(")")];
    Compose(" " + word, [Keyword(word)], " " + target + ")", [Keyword(target), Punctuation(")")], next);
    LexEnclosed('\'', hex, Some(' '));
    Compose(q, [Token(LiteralText, hex)], end, endTokens, next);
    var tail, tailTokens := q + end, [Token(LiteralText, hex)] + endTokens;
    LexMark('(', Some('X'));
    LexName("X", Some('\''));
    Compose("X", [Keyword("X")], tail, tailTokens, next);
    Compose("(", [Punctuation("(")], "X" + tail, [Keyword("X")] + tailTokens, next);
    LexName(name, Some('('));
    Compose(name, [Keyword(name)], "(" + ("X" + tail), [Punctuation("(")] + ([Keyword("X")] + tailTokens), next);
    HexCallText(name, hex, word, target);
    assert [Keyword(name)] + ([Punctuation("(")] + ([Keyword("X")] + tailTokens))
        == [Keyword(name), Punctuation("("), Keyword("X"), Token(LiteralText, hex),
            Keyword(word), Keyword(target), Punctuation(")")];
  }

  lemma ConvertText(hex: string)
    ensures "CONVERT" + "(X'" + hex + "' " + "USING" + " " + "utf8mb4" + ")"
            == "CONVERT(X'" + hex + "' USING utf8mb4)"
    ensures "CAST" + "(X'" + hex + "' " + "AS" + " " + "TEXT" + ")" == "CAST(X'" + hex + "' AS TEXT)"
  {
    assert "CONVERT" + "(X'" == "CONVERT(X'" && "CAST" + "(X'" == "CAST(X'";
    assert "CONVERT(X'" + hex + "' " + "USING" + " " + "utf8mb4" + ")"
        == "CONVERT(X'" + hex + ("' " + "USING" + " " + "utf8mb4" + ")");
    assert "CAST(X'" + hex + "' " + "AS" + " " + "TEXT" + ")"
        == "CAST(X'" + hex + ("' " + "AS" + " " + "TEXT" + ")");
    assert "' " + "USING" + " " + "utf8mb4" + ")" == "' USING utf8mb4)";
    assert "' " + "AS" + " " + "TEXT" + ")" == "' AS TEXT)";
  }

  lemma HexCallText(name: string, hex: string, word: string, target: string)
    ensures name + ("(" + ("X" + (['\''] + hex + ['\''] + (" " + word + (" " + target + ")")))))
            == name + "(X'" + hex + "' " + word + " " + target + ")"
  {
    assert "(" + ("X" + (['\''] + hex)) == "(X'" + hex;
  }

  /** Text without the quote needs no doubling. */
  lemma {:induction false} Undoubled(quote: char, s: string)
    requires forall i :: 0 <= i < |s| ==> s[i] != quote
    ensures Doubled(quote, s) == s
  {
    if s != [] {
      Undoubled(quote, s[1..]);
    }
  }

  lemma LexText(backend: Backend, text: string, next: Option<char>)
    requires Ends(next)
    ensures Reads(RenderText(backend, text), TextTokens(backend, text), next)
  {
    var hex := ToHex(Utf8Encode(text));
    if backend.Mariadb? {
      LexHexCall("CONVERT", hex, "USING", "utf8mb4", next);
      ConvertText(hex);
    } else if HasNul(text) {
      LexHexCall("CAST", hex, "AS", "TEXT", next);
      ConvertText(hex);
    } else {
      LexEnclosed('\'', text, next);
    }
  }

  lemma LexLeaf(backend: Backend, e: CheckExpression, next: Option<char>)
    requires IsColumn(e) || IsLiteral(e)
    requires Ends(next)
    ensures Reads(RenderLeaf(backend, e), LeafTokens(backend, e), next)
  {
    if e.operator.Column? {
      LexEnclosed(QuoteMark(backend), e.value.text, next);
    } else if e.value.Text? {
      LexText(backend, e.value.text, next);
    } else {
      LexInteger(e.value.number, next);
    }
  }

  lemma {:induction false} LexList(backend: Backend, es: seq<CheckExpression>, next: Option<char>)
    requires es != [] && forall i :: 0 <= i < |es| ==> IsLiteral(es[i])
    requires Ends(next)
    ensures Reads(RenderList(backend, es), ListTokens(backend, es), next)
  {
    var leaf, leafTokens := RenderLeaf(backend, es[0]), LeafTokens(backend, es[0]);
    if |es| == 1 {
      LexLeaf(backend, es[0], next);
      assert leaf + "" == leaf && leafTokens + [] == leafTokens;
    } else {
      LexLeaf(backend, es[0], Some(','));
      LexList(backend, es[1..], next);
      var more, moreTokens := RenderList(backend, es[1..]), ListTokens(backend, es[1..]);
      LexComma(First(more, next));
      Compose(", ", [Punctuation(",")], more, moreTokens, next);
      Compose(leaf, leafTokens, ", " + more, [Punctuation(",")] + moreTokens, next);
    }
  }

  lemma LexComma(next: Option<char>)
    ensures Reads(", ", [Punctuation(",")], next)
  {
    LexMark(',', Some(' '));
    LexBlank(next);
    Compose(",", [Punctuation(",")], " ", [], next);
    assert "," + " " == ", " && [Punctuation(",")] + [] == [Punctuation(",")];
  }

  // ----- conditions -----

  lemma LexIsNull(next: Option<char>)
    requires Ends(next)
    ensures Reads(" IS NULL", [Keyword("IS"), Keyword("NULL")], next)
    ensures Reads(" IS NOT NULL", [Keyword("IS"), Keyword("NOT"), Keyword("NULL")], next)
  {
    LexTwoNames("IS", "NULL", next);
    assert " " + "IS" + (" " + "NULL") == " IS NULL";
    LexSpacedName("IS", Some(' '));
    LexTwoNames("NOT", "NULL", next);
    Compose(" " + "IS", [Keyword("IS")], " " + "NOT" + (" " + "NULL"), [Keyword("NOT"), Keyword("NULL")], next);
    assert " " + "IS" + (" " + "NOT" + (" " + "NULL")) == " IS NOT NULL";
    assert [Keyword("IS")] + [Keyword("NOT"), Keyword("NULL")]
        == [Keyword("IS"), Keyword("NOT"), Keyword("NULL")];
  }

  lemma LexIn(next: Option<char>)
    ensures Reads(" IN (", [Keyword("IN"), Punctuation("(")], next)
    ensures Reads(" NOT IN (", [Keyword("NOT"), Keyword("IN"), Punctuation("(")], next)
  {
    LexSpacedNameOpen("IN", next);
    assert " " + ("IN" + " (") == " IN (";
    LexSpacedName("NOT", Some(' '));
    Compose(" " + "NOT", [Keyword("NOT")], " IN (", [Keyword("IN"), Punctuation("(")], next);
    assert " " + "NOT" + " IN (" == " NOT IN (";
    assert [Keyword("NOT")] + [Keyword("IN"), Punctuation("(")]
        == [Keyword("NOT"), Keyword("IN"), Punctuation("(")];
  }

  lemma LexRange(next: Option<char>)
    ensures Reads(" BETWEEN ", [Keyword("BETWEEN")], next)
    ensures Reads(" AND ", [Keyword("AND")], next)
  {
    LexPaddedName("AND", next);
    assert " " + "AND" + " " == " AND ";
    LexPaddedName("BETWEEN", next);
    assert " " + "BETWEEN" + " " == " BETWEEN ";
  }

  lemma {:induction false} LexNullTest(backend: Backend, e: CheckExpression, next: Option<char>)
    requires IsBound(e) && (e.operator.IsNull? || e.operator.IsNotNull?) && Ends(next)
    ensures Reads(Render(backend, e), Tokens(backend, e), next)
  {
    var leaf, leafTokens := RenderLeaf(backend, e.arguments[0]), LeafTokens(backend, e.arguments[0]);
    LexLeaf(backend, e.arguments[0], Some(' '));
    LexIsNull(next);
    if e.operator.IsNull? {
      Compose(leaf, leafTokens, " IS NULL", [Keyword("IS"), Keyword("NULL")], next);
    } else {
      Compose(leaf, leafTokens, " IS NOT NULL", [Keyword("IS"), Keyword("NOT"), Keyword("NULL")], next);
    }
  }

  lemma LexFour(a: string, ta: seq<Token>, b: string, tb: seq<Token>, c: string, tc: seq<Token>,
                d: string, td: seq<Token>, next: Option<char>)
    requires b != [] && c != [] && d != []
    requires Reads(a, ta, Some(b[0])) && Reads(b, tb, Some(c[0])) && Reads(c, tc, Some(d[0]))
    requires Reads(d, td, next)
    ensures Reads(a + b + c + d, ta + tb + tc + td, next)
  {
    Compose(a, ta, b, tb, Some(c[0]));
    Compose(a + b, ta + tb, c, tc, Some(d[0]));
    Compose(a + b + c, ta + tb + tc, d, td, next);
  }

  lemma LeafNonempty(backend: Backend, e: CheckExpression)
    requires IsColumn(e) || IsLiteral(e)
    ensures RenderLeaf(backend, e) != []
  {
  }

  lemma {:induction false} LexMembership(backend: Backend, e: CheckExpression, next: Option<char>)
    requires IsBound(e) && (e.operator.In? || e.operator.NotIn?)
    ensures Reads(Render(backend, e), Tokens(backend, e), next)
  {
    var leaf, leafTokens := RenderLeaf(backend, e.arguments[0]), LeafTokens(backend, e.arguments[0]);
    var list, listTokens := RenderList(backend, e.arguments[1..]), ListTokens(backend, e.arguments[1..]);
    LeafNonempty(backend, e.arguments[1]);
    LexLeaf(backend, e.arguments[0], Some(' '));
    LexIn(Some(list[0]));
    LexList(backend, e.arguments[1..], Some(')'));
    LexMark(')', next);
    if e.operator.In? {
      LexFour(leaf, leafTokens, " IN (", [Keyword("IN"), Punctuation("(")],
              list, listTokens, ")", [Punctuation(")")], next);
    } else {
      LexFour(leaf, leafTokens, " NOT IN (", [Keyword("NOT"), Keyword("IN"), Punctuation("(")],
              list, listTokens, ")", [Punctuation(")")], next);
    }
  }

  lemma {:induction false} LexBetween(backend: Backend, e: CheckExpression, next: Option<char>)
    requires IsBound(e) && e.operator.Between? && Ends(next)
    ensures Reads(Render(backend, e), Tokens(backend, e), next)
  {
    var leaf, leafTokens := RenderLeaf(backend, e.arguments[0]), LeafTokens(backend, e.arguments[0]);
    var low, lowTokens := RenderLeaf(backend, e.arguments[1]), LeafTokens(backend, e.arguments[1]);
    var high, highTokens := RenderLeaf(backend, e.arguments[2]), LeafTokens(backend, e.arguments[2]);
    LeafNonempty(backend, e.arguments[1]);
    LeafNonempty(backend, e.arguments[2]);
    LexLeaf(backend, e.arguments[0], Some(' '));
    LexRange(Some(low[0]));
    LexLeaf(backend, e.arguments[1], Some(' '));
    LexRange(Some(high[0]));
    LexLeaf(backend, e.arguments[2], next);
    LexFour(leaf, leafTokens, " BETWEEN ", [Keyword("BETWEEN")], low, lowTokens, " AND ", [Keyword("AND")],
            Some(high[0]));
    Compose(leaf + " BETWEEN " + low + " AND ", leafTokens + [Keyword("BETWEEN")] + lowTokens + [Keyword("AND")],
            high, highTokens, next);
  }

  lemma {:induction false} LexComparisonNode(backend: Backend, e: CheckExpression, next: Option<char>)
    requires IsBound(e) && IsComparison(e.operator) && Ends(next)
    ensures Reads(Render(backend, e), Tokens(backend, e), next)
  {
    var left, leftTokens := RenderLeaf(backend, e.arguments[0]), LeafTokens(backend, e.arguments[0]);
    var right, rightTokens := RenderLeaf(backend, e.arguments[1]), LeafTokens(backend, e.arguments[1]);
    var op := ComparisonSql(e.operator);
    LeafNonempty(backend, e.arguments[1]);
    LexLeaf(backend, e.arguments[0], Some(' '));
    LexBlank(Some(op[0]));
    LexComparison(e.operator);
    LexBlank(Some(right[0]));
    LexLeaf(backend, e.arguments[1], next);
    LexFour(left, leftTokens, " ", [], op, [Punctuation(op)], " ", [], Some(right[0]));
    Compose(left + " " + op + " ", leftTokens + [] + [Punctuation(op)] + [], right, rightTokens, next);
    assert leftTokens + [] + [Punctuation(op)] + [] == leftTokens + [Punctuation(op)];
  }

  lemma LexNegation(a: string, ta: seq<Token>, next: Option<char>)
    requires Reads(a, ta, Some(')'))
    ensures Reads("NOT (" + a + ")", [Keyword("NOT"), Punctuation("(")] + ta + [Punctuation(")")], next)
  {
    LexNameOpen("NOT", First(a, Some(')')));
    assert "NOT" + " (" == "NOT (";
    Compose("NOT (", [Keyword("NOT"), Punctuation("(")], a, ta, Some(')'));
    LexMark(')', next);
    Compose("NOT (" + a, [Keyword("NOT"), Punctuation("(")] + ta, ")", [Punctuation(")")], next);
  }

  /** A connective, given that its children read correctly inside parentheses. */
  lemma {:induction false} LexConnective(backend: Backend, e: CheckExpression, next: Option<char>)
    requires IsBound(e) && (e.operator.Not? || e.operator.And? || e.operator.Or?)
    requires Reads(Render(backend, e.arguments[0]), Tokens(backend, e.arguments[0]), Some(')'))
    requires !e.operator.Not? ==>
               Reads(Render(backend, e.arguments[1]), Tokens(backend, e.arguments[1]), Some(')'))
    ensures Reads(Render(backend, e), Tokens(backend, e), next)
  {
    if e.operator.Not? {
      LexNegation(Render(backend, e.arguments[0]), Tokens(backend, e.arguments[0]), next);
    } else {
      var joint := if e.operator.And? then ") AND (" else ") OR (";
      JointText();
      LexChain(OperatorWord(e.operator), joint, Render(backend, e.arguments[0]), Tokens(backend, e.arguments[0]),
               Render(backend, e.arguments[1]), Tokens(backend, e.arguments[1]), next);
    }
  }

  lemma JointText()
    ensures ") AND (" == ") " + "AND" + " (" && ") OR (" == ") " + "OR" + " ("
  {
  }

  /** A rendered condition reads as its own tokens wherever an expression may end. */
  lemma {:induction false} LexRender(backend: Backend, e: CheckExpression, next: Option<char>)
    requires IsBound(e) && Ends(next)
    ensures Reads(Render(backend, e), Tokens(backend, e), next)
    decreases e
  {
    if e.operator.Not? || e.operator.And? || e.operator.Or? {
      LexRender(backend, e.arguments[0], Some(')'));
      if !e.operator.Not? {
        LexRender(backend, e.arguments[1], Some(')'));
      }
      LexConnective(backend, e, next);
    } else if e.operator.IsNull? || e.operator.IsNotNull? {
      LexNullTest(backend, e, next);
    } else if e.operator.In? || e.operator.NotIn? {
      LexMembership(backend, e, next);
    } else if e.operator.Between? {
      LexBetween(backend, e, next);
    } else {
      LexComparisonNode(backend, e, next);
    }
  }

  lemma LexChain(word: string, joint: string, a: string, ta: seq<Token>, b: string, tb: seq<Token>,
                 next: Option<char>)
    requires PlainWord(word) && joint == ") " + word + " ("
    requires Reads(a, ta, Some(')')) && Reads(b, tb, Some(')'))
    ensures Reads("(" + a + joint + b + ")",
                  [Punctuation("(")] + ta + [Punctuation(")"), Keyword(word), Punctuation("(")] + tb
                  + [Punctuation(")")], next)
  {
    var open, jointTokens := [Punctuation("(")], [Punctuation(")"), Keyword(word), Punctuation("(")];
    LexMark('(', First(a, Some(')')));
    Compose("(", open, a, ta, Some(')'));
    LexJoint(word, First(b, Some(')')));
    Compose("(" + a, open + ta, joint, jointTokens, First(b, Some(')')));
    Compose("(" + a + joint, open + ta + jointTokens, b, tb, Some(')'));
    LexMark(')', next);
    Compose("(" + a + joint + b, open + ta + jointTokens + tb, ")", [Punctuation(")")], next);
  }
}
