/** Compiled schema SQL, and what the catalog reader recovers from it. */
module SchemaSql {
  import opened TextCodec
  import opened CheckTree
  import opened CheckLexer
  import opened CheckParser
  import opened CheckRender
  import opened CheckRoundTrip
  import opened CheckParseBack
  import opened CheckCatalog

  // ----- rendered CHECKs read back, on both backends -----

  lemma {:induction false} LexWhole(u: Alphabet, mariadb: bool, text: string, tokens: seq<Token>)
    requires Reads(text, tokens, None)
    ensures Lex(Reader(u, mariadb), text) == Some(tokens)
  {
    assert First([], None) == None;
    assert Lexes(Reader(u, mariadb), text, tokens, []);
    assert text + [] == text && tokens + [] == tokens;
  }

  lemma {:induction false} ParseRendered(keywords: bool, backend: Backend, e: CheckExpression)
    requires IsBound(e)
    ensures ParseTokens(keywords, Tokens(backend, e)) == Some(e)
  {
    TokensParse(keywords, backend, e, []);
    assert Tokens(backend, e) + [] == Tokens(backend, e);
  }

  /** For every tree the binder produces: tokenizing and parsing its SQL returns that tree. */
  lemma {:induction false} RenderRoundTrip(u: Alphabet, mariadb: bool, backend: Backend, e: CheckExpression)
    requires IsBound(e)
    ensures
      var lexed := Lex(Reader(u, mariadb), Render(backend, e));
      lexed.Some? && ParseTokens(false, lexed.value) == Some(e)
  {
    LexRender(backend, e, None);
    LexWhole(u, mariadb, Render(backend, e), Tokens(backend, e));
    ParseRendered(false, backend, e);
  }

  predicate Unescaped(ts: seq<Token>) {
    forall i :: 0 <= i < |ts| ==> !IsEscaped(ts[i])
  }

  lemma TextUnescaped(text: string)
    ensures Unescaped(TextTokens(Mariadb, text))
  {
    var hex := ToHex(Utf8Encode(text));
    assert forall i :: 0 <= i < |hex| ==> HexValue(hex[i]).Some?;
    assert HexValue('\\').None?;
  }

  lemma LeafUnescaped(e: CheckExpression)
    requires IsColumn(e) || IsLiteral(e)
    ensures Unescaped(LeafTokens(Mariadb, e))
  {
    if e.value.Text? {
      TextUnescaped(e.value.text);
    }
  }

  lemma {:induction false} ListUnescaped(es: seq<CheckExpression>)
    requires es != [] && forall i :: 0 <= i < |es| ==> IsLiteral(es[i])
    ensures Unescaped(ListTokens(Mariadb, es))
  {
    LeafUnescaped(es[0]);
    if |es| > 1 {
      ListUnescaped(es[1..]);
    }
  }

  lemma UnescapedConcat(a: seq<Token>, b: seq<Token>)
    requires Unescaped(a) && Unescaped(b)
    ensures Unescaped(a + b)
  {
  }

  lemma {:induction false} AtomUnescaped(e: CheckExpression)
    requires IsBound(e) && IsAtomic(e)
    ensures Unescaped(Tokens(Mariadb, e))
  {
    var args := e.arguments;
    var left := LeafTokens(Mariadb, args[0]);
    LeafUnescaped(args[0]);
    if e.operator.In? {
      var open := [Keyword("IN"), Punctuation("(")];
      ListUnescaped(args[1..]);
      UnescapedConcat(left, open);
      UnescapedConcat(left + open, ListTokens(Mariadb, args[1..]));
    } else if e.operator.NotIn? {
      var open := [Keyword("NOT"), Keyword("IN"), Punctuation("(")];
      ListUnescaped(args[1..]);
      UnescapedConcat(left, open);
      UnescapedConcat(left + open, ListTokens(Mariadb, args[1..]));
    } else if e.operator.Between? {
      var low := LeafTokens(Mariadb, args[1]);
      LeafUnescaped(args[1]);
      LeafUnescaped(args[2]);
      UnescapedConcat(left, [Keyword("BETWEEN")]);
      UnescapedConcat(left + [Keyword("BETWEEN")], low);
      UnescapedConcat(left + [Keyword("BETWEEN")] + low, [Keyword("AND")]);
      UnescapedConcat(left + [Keyword("BETWEEN")] + low + [Keyword("AND")], LeafTokens(Mariadb, args[2]));
    } else if IsComparison(e.operator) {
      LeafUnescaped(args[1]);
      UnescapedConcat(left, [Punctuation(ComparisonSql(e.operator))]);
      UnescapedConcat(left + [Punctuation(ComparisonSql(e.operator))], LeafTokens(Mariadb, args[1]));
    }
  }

  lemma {:induction false} RenderUnescaped(e: CheckExpression)
    requires IsBound(e)
    ensures Unescaped(Tokens(Mariadb, e))
    decreases e
  {
    if IsAtomic(e) {
      AtomUnescaped(e);
    } else {
      var open := if e.operator.Not? then [Keyword("NOT"), Punctuation("(")] else [Punctuation("(")];
      var left := Tokens(Mariadb, e.arguments[0]);
      RenderUnescaped(e.arguments[0]);
      UnescapedConcat(open, left);
      if !e.operator.Not? {
        var joint := [Punctuation(")"), Keyword(OperatorWord(e.operator)), Punctuation("(")];
        RenderUnescaped(e.arguments[1]);
        UnescapedConcat(open + left, joint);
        UnescapedConcat(open + left + joint, Tokens(Mariadb, e.arguments[1]));
      }
    }
  }

  /** MariaDB's catalog text of a CHECK, if it is what was rendered, is recognized as that CHECK. */
  lemma {:induction false} MariadbCheckRoundTrip(u: Alphabet, e: CheckExpression)
    requires IsBound(e)
    ensures ParseCheck(u, Render(Mariadb, e)) == Some(e)
  {
    LexRender(Mariadb, e, None);
    LexWhole(u, true, Render(Mariadb, e), Tokens(Mariadb, e));
    RenderUnescaped(e);
    ParseRendered(false, Mariadb, e);
  }

  // ----- literal defaults -----

  function RenderDefault(backend: Backend, value: Value): string {
    match value
    case NoValue => "NULL"
    case Integer(n) => RenderInteger(n)
    case Text(text) =>
      if backend.Mariadb? || HasNul(text) then "(" + RenderText(backend, text) + ")"
      else RenderText(backend, text)
  }

  function DefaultTokens(backend: Backend, value: Value): seq<Token> {
    match value
    case NoValue => [Keyword("NULL")]
    case Integer(n) => IntegerTokens(n)
    case Text(text) =>
      if backend.Mariadb? || HasNul(text) then
        [Punctuation("(")] + TextTokens(backend, text) + [Punctuation(")")]
      else TextTokens(backend, text)
  }

  /** What the catalog reports: nothing, the text of a default, or unusable metadata. */
  datatype CatalogDefault = NoDefault | SqlDefault(sql: string) | Unavailable

  function CompareDefault(u: Alphabet, backend: Backend, expected: Value, actual: CatalogDefault, nullable: bool)
    : Status
  {
    match actual
    case NoDefault => if backend.Mariadb? && expected.NoValue? && nullable then Matched else Drift
    case Unavailable => Unchecked
    case SqlDefault(sql) =>
      if sql == "CurrentTimestamp" then Drift
      else
        match ParseDefault(u, backend.Mariadb?, sql)
        case None => Unchecked
        case Some(value) => if value == expected then Matched else Drift
  }

  lemma LexDefault(backend: Backend, value: Value, next: Option<char>)
    requires Ends(next)
    ensures Reads(RenderDefault(backend, value), DefaultTokens(backend, value), next)
  {
    match value
    case NoValue => LexName("NULL", next);
    case Integer(n) => LexInteger(n, next);
    case Text(text) =>
      if backend.Mariadb? || HasNul(text) {
        var sql, ts := RenderText(backend, text), TextTokens(backend, text);
        LexText(backend, text, Some(')'));
        LexMark('(', First(sql, Some(')')));
        Compose("(", [Punctuation("(")], sql, ts, Some(')'));
        LexMark(')', next);
        Compose("(" + sql, [Punctuation("(")] + ts, ")", [Punctuation(")")], next);
      } else {
        LexText(backend, text, next);
      }
  }

  lemma {:induction false} LiteralComparison(e: CheckExpression, backend: Backend, rest: seq<Token>)
    requires IsLiteral(e) && Closes(rest)
    ensures Comparison(true, LeafTokens(backend, e) + rest) == Ok(e, rest)
  {
    OperandLeaf(true, backend, e, rest);
    StopsHere(true, e, rest);
    var ts := LeafTokens(backend, e) + rest;
    assert ts[0] == LeafTokens(backend, e)[0];
    if ts[0].kind.Word? || ts[0].kind.Symbol? {
      UpperFixed(ts[0].text);
    }
  }

  lemma {:induction false} LiteralParses(e: CheckExpression, backend: Backend, rest: seq<Token>)
    requires IsLiteral(e) && Closes(rest)
    ensures Chain(true, Or, LeafTokens(backend, e) + rest) == Ok(e, rest)
  {
    LiteralComparison(e, backend, rest);
    SingleParses(true, LeafTokens(backend, e) + rest, e, rest);
  }

  lemma NullParses()
    ensures ParseTokens(true, [Keyword("NULL")]) == Some(LiteralOf(NoValue))
  {
    var ts := [Keyword("NULL")];
    UpperFixed("NULL");
    assert ts + [] == ts && ts[1..] == [];
    OperandWord(true, Keyword("NULL"), []);
    assert Unsigned(true, ts) == Ok(LiteralOf(NoValue), []);
    StopsHere(true, LiteralOf(NoValue), []);
    assert Comparison(true, ts) == Ok(LiteralOf(NoValue), []);
    SingleParses(true, ts, LiteralOf(NoValue), []);
  }

  lemma DefaultParses(backend: Backend, value: Value)
    ensures ParseTokens(true, DefaultTokens(backend, value)) == Some(LiteralOf(value))
  {
    if value.NoValue? {
      NullParses();
    } else {
      var e := LiteralOf(value);
      var leaf := LeafTokens(backend, e);
      if value.Text? && (backend.Mariadb? || HasNul(value.text)) {
        LiteralParses(e, backend, [Punctuation(")")]);
        assert [Punctuation(")")] + [] == [Punctuation(")")];
        GroupParses(true, leaf, e, []);
        var ts := DefaultTokens(backend, value);
        assert [Punctuation("(")] + leaf + [Punctuation(")")] + [] == ts;
        SingleParses(true, ts, e, []);
      } else {
        LiteralParses(e, backend, []);
        assert leaf + [] == leaf;
      }
    }
  }

  lemma DefaultUnescaped(value: Value)
    ensures Unescaped(DefaultTokens(Mariadb, value))
  {
    if value.Text? {
      TextUnescaped(value.text);
    }
  }

  lemma DefaultStart(backend: Backend, value: Value)
    ensures RenderDefault(backend, value) != "CurrentTimestamp"
  {
    var sql := RenderDefault(backend, value);
    assert sql[0] in "N(-'" || IsDigit(sql[0]);
    assert "CurrentTimestamp"[0] == 'C';
  }

  /** A rendered literal default always compares as matched with the value it was rendered from. */
  lemma RenderedDefaultMatches(u: Alphabet, backend: Backend, value: Value, nullable: bool)
    ensures CompareDefault(u, backend, value, SqlDefault(RenderDefault(backend, value)), nullable) == Matched
  {
    LexDefault(backend, value, None);
    LexWhole(u, backend.Mariadb?, RenderDefault(backend, value), DefaultTokens(backend, value));
    DefaultParses(backend, value);
    if backend.Mariadb? {
      DefaultUnescaped(value);
    }
    DefaultStart(backend, value);
  }

  /** SQLite reports a default expression without its parentheses. */
  function ReportedSql(value: Value): string {
    match value
    case NoValue => "NULL"
    case Integer(n) => RenderInteger(n)
    case Text(text) => RenderText(Sqlite, text)
  }

  lemma HexDefaultParses(u: Alphabet, text: string)
    requires HasNul(text)
    ensures ParseDefault(u, false, RenderText(Sqlite, text)) == Some(Text(text))
  {
    var ts := TextTokens(Sqlite, text);
    LexText(Sqlite, text, None);
    LexWhole(u, false, RenderText(Sqlite, text), ts);
    LiteralParses(LiteralOf(Text(text)), Sqlite, []);
    assert ts + [] == ts;
  }

  /** And in that form it still compares as matched. */
  lemma ReportedDefaultMatches(u: Alphabet, value: Value, nullable: bool)
    ensures CompareDefault(u, Sqlite, value, SqlDefault(ReportedSql(value)), nullable) == Matched
  {
    if value.Text? && HasNul(value.text) {
      HexDefaultParses(u, value.text);
      assert ReportedSql(value)[1] == 'A' && "CurrentTimestamp"[1] == 'u';
    } else {
      RenderedDefaultMatches(u, Sqlite, value, nullable);
    }
  }
}
