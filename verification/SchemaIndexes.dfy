/** CREATE INDEX as compiled, and the partial-index predicate read back from it. */
module SchemaIndexes {
  import opened TextCodec
  import opened CheckTree
  import opened CheckLexer
  import opened CheckParser
  import opened CheckRender
  import opened CheckRoundTrip
  import opened CheckParseBack
  import opened CheckCatalog
  import opened SchemaSql
  import opened TokenBalance
  import opened SchemaTables

  datatype IndexColumn = IndexColumn(name: string, prefix: Option<nat>)

  datatype Index = Index(
    name: string, columns: seq<IndexColumn>, unique: bool, filter: Option<CheckExpression>)

  function ColumnSql(column: IndexColumn): string {
    QuoteIdentifier(Sqlite, column.name)
    + if column.prefix.None? then "" else "(" + Decimal(column.prefix.value) + ")"
  }

  function ColumnsSql(columns: seq<IndexColumn>): string {
    if columns == [] then ""
    else if |columns| == 1 then ColumnSql(columns[0])
    else ColumnSql(columns[0]) + ", " + ColumnsSql(columns[1..])
  }

  function PredicateSql(filter: Option<CheckExpression>): string
    requires filter.Some? ==> IsBound(filter.value)
  {
    if filter.None? then "" else " WHERE " + Render(Sqlite, filter.value)
  }

  function CreateIndexSql(table: string, index: Index): string
    requires index.filter.Some? ==> IsBound(index.filter.value)
  {
    "CREATE " + (if index.unique then "UNIQUE " else "") + "INDEX " + QuoteIdentifier(Sqlite, index.name)
    + " ON " + QuoteIdentifier(Sqlite, table) + " (" + ColumnsSql(index.columns) + ")"
    + PredicateSql(index.filter)
  }

  // ----- its tokens -----

  function ColumnTokens(column: IndexColumn): seq<Token> {
    [Token(Identifier, column.name)]
    + if column.prefix.None? then []
      else [Punctuation("("), Token(Number, Decimal(column.prefix.value)), Punctuation(")")]
  }

  function ColumnsTokens(columns: seq<IndexColumn>): seq<Token> {
    if columns == [] then []
    else if |columns| == 1 then ColumnTokens(columns[0])
    else ColumnTokens(columns[0]) + [Punctuation(",")] + ColumnsTokens(columns[1..])
  }

  function HeadTokens(unique: bool): seq<Token> {
    if unique then [Keyword("CREATE"), Keyword("UNIQUE"), Keyword("INDEX")]
    else [Keyword("CREATE"), Keyword("INDEX")]
  }

  function PredicateTokens(filter: Option<CheckExpression>): seq<Token>
    requires filter.Some? ==> IsBound(filter.value)
  {
    if filter.None? then [] else [Keyword("WHERE")] + Tokens(Sqlite, filter.value)
  }

  lemma LexColumn(column: IndexColumn, next: Option<char>)
    requires next == Some(',') || next == Some(')')
    ensures Reads(ColumnSql(column), ColumnTokens(column), next)
  {
    var name, id := QuoteIdentifier(Sqlite, column.name), [Token(Identifier, column.name)];
    if column.prefix.None? {
      LexEnclosed('\"', column.name, next);
      assert name + "" == name && id + [] == id;
    } else {
      var digits := Decimal(column.prefix.value);
      var number := [Token(Number, digits)];
      LexEnclosed('\"', column.name, Some('('));
      LexMark('(', Some(digits[0]));
      DecimalRoundTrip(column.prefix.value);
      LexNumber(digits, Some(')'));
      LexMark(')', next);
      Compose("(", [Punctuation("(")], digits, number, Some(')'));
      Compose("(" + digits, [Punctuation("(")] + number, ")", [Punctuation(")")], next);
      Compose(name, id, "(" + digits + ")", [Punctuation("(")] + number + [Punctuation(")")], next);
      assert [Punctuation("(")] + number + [Punctuation(")")] == [Punctuation("("), number[0], Punctuation(")")];
    }
  }

  lemma {:induction false} LexColumns(columns: seq<IndexColumn>)
    ensures Reads(ColumnsSql(columns), ColumnsTokens(columns), Some(')'))
  {
    if columns == [] {
      LexNothing(Some(')'));
    } else if |columns| == 1 {
      LexColumn(columns[0], Some(')'));
    } else {
      var first, more := ColumnSql(columns[0]), ColumnsSql(columns[1..]);
      LexColumns(columns[1..]);
      LexColumn(columns[0], Some(','));
      LexComma(First(more, Some(')')));
      Compose(first, ColumnTokens(columns[0]), ", ", [Punctuation(",")], First(more, Some(')')));
      Compose(first + ", ", ColumnTokens(columns[0]) + [Punctuation(",")],
              more, ColumnsTokens(columns[1..]), Some(')'));
    }
  }

  lemma LexWord(w: string, c: char)
    requires PlainWord(w)
    ensures Reads(w + " ", [Keyword(w)], Some(c))
  {
    LexName(w, Some(' '));
    LexBlank(Some(c));
    Compose(w, [Keyword(w)], " ", [], Some(c));
    assert [Keyword(w)] + [] == [Keyword(w)];
  }

  lemma LexWords(v: string, w: string, c: char)
    requires PlainWord(v) && PlainWord(w)
    ensures Reads(v + " " + (w + " "), [Keyword(v)] + [Keyword(w)], Some(c))
  {
    LexWord(v, w[0]);
    LexWord(w, c);
    Compose(v + " ", [Keyword(v)], w + " ", [Keyword(w)], Some(c));
  }

  lemma LexThreeWords(u: string, v: string, w: string, c: char)
    requires PlainWord(u) && PlainWord(v) && PlainWord(w)
    ensures Reads(u + " " + (v + " ") + (w + " "), [Keyword(u)] + [Keyword(v)] + [Keyword(w)], Some(c))
  {
    LexWords(u, v, w[0]);
    LexWord(w, c);
    Compose(u + " " + (v + " "), [Keyword(u)] + [Keyword(v)], w + " ", [Keyword(w)], Some(c));
  }

  lemma HeadText()
    ensures "CREATE" + " " == "CREATE " && "UNIQUE" + " " == "UNIQUE " && "INDEX" + " " == "INDEX "
  {
  }

  lemma LexHead(unique: bool, c: char)
    ensures Reads("CREATE " + (if unique then "UNIQUE " else "") + "INDEX ", HeadTokens(unique), Some(c))
  {
    HeadText();
    if unique {
      LexThreeWords("CREATE", "UNIQUE", "INDEX", c);
      assert "CREATE" + " " + ("UNIQUE" + " ") + ("INDEX" + " ") == "CREATE " + "UNIQUE " + "INDEX ";
      assert [Keyword("CREATE")] + [Keyword("UNIQUE")] + [Keyword("INDEX")] == HeadTokens(true);
    } else {
      LexWords("CREATE", "INDEX", c);
      assert "CREATE" + " " + ("INDEX" + " ") == "CREATE " + "" + "INDEX ";
      assert [Keyword("CREATE")] + [Keyword("INDEX")] == [Keyword("CREATE"), Keyword("INDEX")];
    }
  }

  lemma LexPredicate(filter: Option<CheckExpression>)
    requires filter.Some? ==> IsBound(filter.value)
    ensures Reads(PredicateSql(filter), PredicateTokens(filter), None)
  {
    if filter.None? {
      LexNothing(None);
    } else {
      LexRender(Sqlite, filter.value, None);
      LexWhere(Render(Sqlite, filter.value), Tokens(Sqlite, filter.value));
    }
  }

  lemma LexWhere(body: string, tokens: seq<Token>)
    requires Reads(body, tokens, None)
    ensures Reads(" WHERE " + body, [Keyword("WHERE")] + tokens, None)
  {
    LexPaddedName("WHERE", First(body, None));
    assert " " + "WHERE" + " " == " WHERE ";
    Compose(" WHERE ", [Keyword("WHERE")], body, tokens, None);
  }

  /** The statement reads as the concatenation of its parts' tokens. */
  lemma LexStatement(head: string, headTokens: seq<Token>, name: string, id: seq<Token>,
                     table: string, tableId: seq<Token>, columns: string, columnTokens: seq<Token>,
                     filter: string, predicateTokens: seq<Token>)
    requires name != [] && table != []
    requires Reads(head, headTokens, Some(name[0])) && Reads(name, id, Some(' '))
    requires Reads(table, tableId, Some(' ')) && Reads(columns, columnTokens, Some(')'))
    requires Reads(filter, predicateTokens, None)
    ensures Reads(head + name + " ON " + table + " (" + columns + ")" + filter,
                  headTokens + id + [Keyword("ON")] + tableId + [Punctuation("(")] + columnTokens
                  + [Punctuation(")")] + predicateTokens, None)
  {
    var on, open, close := [Keyword("ON")], [Punctuation("(")], [Punctuation(")")];
    Compose(head, headTokens, name, id, Some(' '));
    LexPaddedName("ON", Some(table[0]));
    assert " " + "ON" + " " == " ON ";
    Compose(head + name, headTokens + id, " ON ", on, Some(table[0]));
    Compose(head + name + " ON ", headTokens + id + on, table, tableId, Some(' '));
    LexOpenClose(First(columns, Some(')')));
    var front, frontTokens := head + name + " ON " + table, headTokens + id + on + tableId;
    Compose(front, frontTokens, " (", open, First(columns, Some(')')));
    Compose(front + " (", frontTokens + open, columns, columnTokens, Some(')'));
    LexMark(')', First(filter, None));
    Compose(front + " (" + columns, frontTokens + open + columnTokens, ")", close, First(filter, None));
    Compose(front + " (" + columns + ")", frontTokens + open + columnTokens + close,
            filter, predicateTokens, None);
  }

  function Front(table: string, index: Index): seq<Token> {
    HeadTokens(index.unique) + [Token(Identifier, index.name)] + [Keyword("ON")] + [Token(Identifier, table)]
  }

  function IndexTokens(table: string, index: Index): seq<Token>
    requires index.filter.Some? ==> IsBound(index.filter.value)
  {
    Front(table, index) + [Punctuation("(")] + ColumnsTokens(index.columns) + [Punctuation(")")]
    + PredicateTokens(index.filter)
  }

  lemma LexIndex(table: string, index: Index)
    requires index.filter.Some? ==> IsBound(index.filter.value)
    ensures Reads(CreateIndexSql(table, index), IndexTokens(table, index), None)
  {
    var name, owner := QuoteIdentifier(Sqlite, index.name), QuoteIdentifier(Sqlite, table);
    LexHead(index.unique, name[0]);
    LexEnclosed('\"', index.name, Some(' '));
    LexEnclosed('\"', table, Some(' '));
    LexColumns(index.columns);
    LexPredicate(index.filter);
    LexStatement("CREATE " + (if index.unique then "UNIQUE " else "") + "INDEX ", HeadTokens(index.unique),
                 name, [Token(Identifier, index.name)], owner, [Token(Identifier, table)],
                 ColumnsSql(index.columns), ColumnsTokens(index.columns),
                 PredicateSql(index.filter), PredicateTokens(index.filter));
  }

  // ----- finding the WHERE -----

  /** Before the column list has closed, tokens that do not nest are passed over. */
  lemma {:induction false} WherePast(ts: seq<Token>, p: nat, run: seq<Token>, depth: nat)
    requires At(ts, p, run) && forall i :: 0 <= i < |run| ==> Unnested(run[i])
    ensures WhereAt(ts, p, depth, false) == WhereAt(ts, p + |run|, depth, false)
    decreases |run|
  {
    if run != [] {
      AtTail(ts, p, run);
      WherePast(ts, p + 1, run[1..], depth);
    }
  }

  lemma ColumnPast(ts: seq<Token>, p: nat, column: IndexColumn)
    requires At(ts, p, ColumnTokens(column))
    ensures WhereAt(ts, p, 1, false) == WhereAt(ts, p + |ColumnTokens(column)|, 1, false)
  {
    var run := ColumnTokens(column);
    assert ts[p..p + |run|] == run;
    assert ts[p] == run[0];
    if column.prefix.Some? {
      assert ts[p + 1] == run[1] && ts[p + 2] == run[2] && ts[p + 3] == run[3];
      assert WhereAt(ts, p + 3, 2, false) == WhereAt(ts, p + 4, 1, false);
      assert WhereAt(ts, p + 2, 2, false) == WhereAt(ts, p + 3, 2, false);
    }
  }

  lemma {:induction false} ColumnsLayout(ts: seq<Token>, p: nat, columns: seq<IndexColumn>)
    requires |columns| > 1 && At(ts, p, ColumnsTokens(columns))
    ensures
      var q := p + |ColumnTokens(columns[0])|;
      && At(ts, p, ColumnTokens(columns[0])) && At(ts, q, [Punctuation(",")])
      && At(ts, q + 1, ColumnsTokens(columns[1..]))
      && p + |ColumnsTokens(columns)| == q + 1 + |ColumnsTokens(columns[1..])|
  {
    var first, comma := ColumnTokens(columns[0]), [Punctuation(",")];
    AtConcat(ts, p, first + comma, ColumnsTokens(columns[1..]));
    AtConcat(ts, p, first, comma);
  }

  lemma {:induction false} ColumnsPast(ts: seq<Token>, p: nat, columns: seq<IndexColumn>)
    requires At(ts, p, ColumnsTokens(columns))
    ensures WhereAt(ts, p, 1, false) == WhereAt(ts, p + |ColumnsTokens(columns)|, 1, false)
    decreases |columns|
  {
    if |columns| == 1 {
      ColumnPast(ts, p, columns[0]);
    } else if |columns| > 1 {
      var q := p + |ColumnTokens(columns[0])|;
      ColumnsLayout(ts, p, columns);
      ColumnPast(ts, p, columns[0]);
      WherePast(ts, q, [Punctuation(",")], 1);
      ColumnsPast(ts, q + 1, columns[1..]);
    }
  }

  lemma FrontPlain(table: string, index: Index)
    ensures forall i :: 0 <= i < |Front(table, index)| ==> Unnested(Front(table, index)[i])
  {
  }

  /** After the column list, the scan stands at depth zero with the list closed. */
  lemma {:induction false} ListPast(ts: seq<Token>, table: string, index: Index, p: nat)
    requires p == |Front(table, index)| + 2 + |ColumnsTokens(index.columns)|
    requires At(ts, 0, Front(table, index) + [Punctuation("(")] + ColumnsTokens(index.columns) + [Punctuation(")")])
    ensures WhereAt(ts, 0, 0, false) == WhereAt(ts, p, 0, true)
  {
    var front, columns := Front(table, index), ColumnsTokens(index.columns);
    var open, close := [Punctuation("(")], [Punctuation(")")];
    AtConcat(ts, 0, front + open + columns, close);
    AtConcat(ts, 0, front + open, columns);
    AtConcat(ts, 0, front, open);
    FrontPlain(table, index);
    WherePast(ts, 0, front, 0);
    AtTail(ts, |front|, open);
    ColumnsPast(ts, |front| + 1, index.columns);
    AtTail(ts, p - 1, close);
  }

  /** A rendered predicate never ends in the statement terminator. */
  lemma {:induction false} RenderUnterminated(e: CheckExpression)
    requires IsBound(e)
    ensures WithoutTerminator(Tokens(Sqlite, e)) == Tokens(Sqlite, e) && Tokens(Sqlite, e) != []
  {
    var ts := Tokens(Sqlite, e);
    if e.operator.Between? {
      LeafUnterminated(e.arguments[2], ts[..|ts| - |LeafTokens(Sqlite, e.arguments[2])|]);
    } else if IsComparison(e.operator) {
      LeafUnterminated(e.arguments[1], ts[..|ts| - |LeafTokens(Sqlite, e.arguments[1])|]);
    }
  }

  lemma LeafUnterminated(e: CheckExpression, before: seq<Token>)
    requires IsColumn(e) || IsLiteral(e)
    ensures WithoutTerminator(before + LeafTokens(Sqlite, e)) == before + LeafTokens(Sqlite, e)
    ensures LeafTokens(Sqlite, e) != []
  {
  }

  // ----- column identities -----

  /** Every column the predicate reads is a declared one, spelled as declared. */
  predicate ReadsOnly(columns: seq<string>, e: CheckExpression) {
    if e.operator.Column? then e.value.Text? && e.value.text in columns
    else forall i :: 0 <= i < |e.arguments| ==> ReadsOnly(columns, e.arguments[i])
  }

  predicate DistinctIgnoringCase(columns: seq<string>) {
    forall i, j :: 0 <= i < j < |columns| ==> AsciiLower(columns[i]) != AsciiLower(columns[j])
  }

  lemma {:induction false} ColumnNamedItself(columns: seq<string>, name: string)
    requires DistinctIgnoringCase(columns) && name in columns
    ensures ColumnNamed(columns, name) == Some(name)
  {
    var last := |columns| - 1;
    if AsciiLower(columns[last]) == AsciiLower(name) {
      var i :| 0 <= i < |columns| && columns[i] == name;
    } else {
      assert name in columns[..last];
      ColumnNamedItself(columns[..last], name);
    }
  }

  lemma {:induction false} CanonicalItself(columns: seq<string>, e: CheckExpression)
    requires DistinctIgnoringCase(columns) && ReadsOnly(columns, e)
    requires IsBound(e) || IsColumn(e) || IsLiteral(e)
    ensures CanonicalColumns(columns, e) == Some(e)
    decreases e, 1
  {
    if e.operator.Column? {
      ColumnNamedItself(columns, e.value.text);
    } else {
      AllCanonicalItself(columns, e.arguments);
    }
  }

  lemma {:induction false} AllCanonicalItself(columns: seq<string>, es: seq<CheckExpression>)
    requires DistinctIgnoringCase(columns)
    requires forall i :: 0 <= i < |es| ==>
      ReadsOnly(columns, es[i]) && (IsBound(es[i]) || IsColumn(es[i]) || IsLiteral(es[i]))
    ensures AllCanonicalColumns(columns, es) == Some(es)
    decreases es, 0
  {
    if es != [] {
      CanonicalItself(columns, es[0]);
      AllCanonicalItself(columns, es[1..]);
      assert [es[0]] + es[1..] == es;
    }
  }

  // ----- the round trip -----

  lemma WithoutPredicate(ts: seq<Token>, table: string, index: Index, columns: seq<string>)
    requires index.filter.None? && ts == IndexTokens(table, index)
    ensures PredicateOf(WithoutTerminator(ts), columns) == None
  {
    var front := Front(table, index) + [Punctuation("(")] + ColumnsTokens(index.columns) + [Punctuation(")")];
    assert ts == front;
    assert ts[|ts| - 1] == Punctuation(")");
    assert ts[0..|ts|] == ts;
    ListPast(ts, table, index, |ts|);
  }

  lemma FilterLayout(front: seq<Token>, body: seq<Token>, ts: seq<Token>)
    requires ts == front + ([Keyword("WHERE")] + body) && body != [] && WithoutTerminator(body) == body
    ensures At(ts, 0, front) && |front| < |ts| && ts[|front|] == Keyword("WHERE") && ts[|front| + 1..] == body
    ensures WithoutTerminator(ts) == ts
  {
    assert ts[|ts| - 1] == body[|body| - 1];
    assert ts[0..|front|] == front;
  }

  lemma {:induction false} FilterRead(front: seq<Token>, body: seq<Token>, ts: seq<Token>, columns: seq<string>, e: CheckExpression)
    requires ts == front + ([Keyword("WHERE")] + body) && body != [] && WithoutTerminator(body) == body
    requires WhereAt(ts, 0, 0, false) == WhereAt(ts, |front|, 0, true)
    requires ParseTokens(false, body) == Some(e) && CanonicalColumns(columns, e) == Some(e)
    ensures PredicateOf(WithoutTerminator(ts), columns) == Some(e)
  {
    FilterLayout(front, body, ts);
    FilterFound(ts, |front|, columns, e);
  }

  lemma {:induction false} FrontRead(front: seq<Token>, rest: seq<Token>, table: string, index: Index)
    requires front == Front(table, index) + [Punctuation("(")] + ColumnsTokens(index.columns) + [Punctuation(")")]
    ensures WhereAt(front + rest, 0, 0, false) == WhereAt(front + rest, |front|, 0, true)
  {
    assert (front + rest)[0..|front|] == front;
    ListPast(front + rest, table, index, |front|);
  }

  lemma {:induction false} WithPredicate(ts: seq<Token>, table: string, index: Index, columns: seq<string>)
    requires index.filter.Some? && IsBound(index.filter.value) && ts == IndexTokens(table, index)
    requires DistinctIgnoringCase(columns) && ReadsOnly(columns, index.filter.value)
    ensures PredicateOf(WithoutTerminator(ts), columns) == index.filter
  {
    var e := index.filter.value;
    var front := Front(table, index) + [Punctuation("(")] + ColumnsTokens(index.columns) + [Punctuation(")")];
    RenderUnterminated(e);
    ParseRendered(false, Sqlite, e);
    CanonicalItself(columns, e);
    FrontRead(front, [Keyword("WHERE")] + Tokens(Sqlite, e), table, index);
    FilterRead(front, Tokens(Sqlite, e), ts, columns, e);
  }

  lemma {:induction false} FilterFound(ts: seq<Token>, p: nat, columns: seq<string>, e: CheckExpression)
    requires p < |ts| && ts[p] == Keyword("WHERE") && WhereAt(ts, 0, 0, false) == WhereAt(ts, p, 0, true)
    requires ParseTokens(false, ts[p + 1..]) == Some(e) && CanonicalColumns(columns, e) == Some(e)
    ensures PredicateOf(ts, columns) == Some(e)
  {
    UpperFixed("WHERE");
    assert WhereAt(ts, p, 0, true) == Some(p);
  }

  /** The predicate read from the compiled CREATE INDEX is the declared one, and there is none when
      none was declared. */
  lemma {:induction false} IndexPredicateRoundTrip(u: Alphabet, table: string, index: Index, columns: seq<string>)
    requires index.filter.Some? ==>
      IsBound(index.filter.value) && ReadsOnly(columns, index.filter.value) && DistinctIgnoringCase(columns)
    ensures IndexPredicate(u, CreateIndexSql(table, index), columns) == index.filter
  {
    LexIndex(table, index);
    LexWhole(u, false, CreateIndexSql(table, index), IndexTokens(table, index));
    if index.filter.None? {
      WithoutPredicate(IndexTokens(table, index), table, index, columns);
    } else {
      WithPredicate(IndexTokens(table, index), table, index, columns);
    }
  }
}
