/** CREATE TABLE as compiled, and the CHECKs read back from it. */
module SchemaTables {
  import opened TextCodec
  import opened CheckTree
  import opened CheckLexer
  import opened CheckParser
  import opened CheckRender
  import opened CheckRoundTrip
  import opened CheckParseBack
  import opened CheckCatalog
  import opened SchemaSql
  import opened TokenBalance
  import opened TableScan
  import opened SchemaColumns

  // ----- compiled statements -----

  datatype Action = Cascade | Restrict | SetNull | NoAction

  datatype ForeignKey = ForeignKey(
    columns: seq<string>, table: string, targets: seq<string>,
    onDelete: Option<Action>, onUpdate: Option<Action>)

  datatype NamedCheck = NamedCheck(name: string, expression: CheckExpression)

  datatype PlannedTable = PlannedTable(
    name: string, columns: seq<PlannedColumn>, foreignKeys: seq<ForeignKey>, checks: seq<NamedCheck>)

  function Join(parts: seq<string>): string {
    if parts == [] then "" else if |parts| == 1 then parts[0] else parts[0] + ", " + Join(parts[1..])
  }

  function QuoteAll(names: seq<string>): seq<string> {
    if names == [] then [] else [QuoteIdentifier(Sqlite, names[0])] + QuoteAll(names[1..])
  }

  function ActionSql(action: Action): string {
    match action
    case Cascade => "CASCADE"
    case Restrict => "RESTRICT"
    case SetNull => "SET NULL"
    case NoAction => "NO ACTION"
  }

  function ActionClause(event: string, action: Option<Action>): string {
    if action.None? then "" else " ON " + event + " " + ActionSql(action.value)
  }

  function ForeignKeySql(fk: ForeignKey): string {
    "FOREIGN KEY (" + Join(QuoteAll(fk.columns)) + ") REFERENCES " + QuoteIdentifier(Sqlite, fk.table)
    + " (" + Join(QuoteAll(fk.targets)) + ")"
    + ActionClause("DELETE", fk.onDelete) + ActionClause("UPDATE", fk.onUpdate)
  }

  function CheckSql(check: NamedCheck): string
    requires IsBound(check.expression)
  {
    "CONSTRAINT " + QuoteIdentifier(Sqlite, check.name) + " CHECK (" + Render(Sqlite, check.expression) + ")"
  }

  function ColumnsSql(columns: seq<PlannedColumn>): seq<string> {
    if columns == [] then [] else [ColumnSql(columns[0])] + ColumnsSql(columns[1..])
  }

  /** The members of a composite primary key, in column order. */
  function CompositeKey(columns: seq<PlannedColumn>): seq<string> {
    if columns == [] then []
    else (if columns[0].compositeKey then [columns[0].name] else []) + CompositeKey(columns[1..])
  }

  function KeySql(key: seq<string>): string {
    "PRIMARY KEY (" + Join(QuoteAll(key)) + ")"
  }

  function ForeignKeysSql(fks: seq<ForeignKey>): seq<string> {
    if fks == [] then [] else [ForeignKeySql(fks[0])] + ForeignKeysSql(fks[1..])
  }

  ghost predicate AllBound(checks: seq<NamedCheck>) {
    forall i :: 0 <= i < |checks| ==> IsBound(checks[i].expression)
  }

  function ChecksSql(checks: seq<NamedCheck>): seq<string>
    requires AllBound(checks)
  {
    if checks == [] then [] else [CheckSql(checks[0])] + ChecksSql(checks[1..])
  }

  function DefinitionsSql(table: PlannedTable): seq<string>
    requires AllBound(table.checks)
  {
    var key := CompositeKey(table.columns);
    ColumnsSql(table.columns) + (if key == [] then [] else [KeySql(key)])
    + ForeignKeysSql(table.foreignKeys) + ChecksSql(table.checks)
  }

  function CreateTableSql(table: PlannedTable): string
    requires AllBound(table.checks)
  {
    "CREATE TABLE " + QuoteIdentifier(Sqlite, table.name) + " (" + Join(DefinitionsSql(table)) + ") STRICT"
  }

  function CheckTokens(check: NamedCheck): seq<Token>
    requires IsBound(check.expression)
  {
    [Keyword("CONSTRAINT"), Token(Identifier, check.name), Keyword("CHECK"), Punctuation("(")]
    + (Tokens(Sqlite, check.expression) + [Punctuation(")")])
  }

  function Declared(check: NamedCheck): CheckShape {
    CheckShape(Some(check.name), Some(check.expression))
  }

  /** One CHECK definition contributes exactly its declared name and tree. */
  lemma CheckScan(read: BodyReader, ts: seq<Token>, p: nat, check: NamedCheck)
    requires IsBound(check.expression) && At(ts, p, CheckTokens(check))
    requires read(Tokens(Sqlite, check.expression)) == Some(check.expression)
    ensures Yields(read, ts, p, p + |CheckTokens(check)|, [Declared(check)])
  {
    var body := Tokens(Sqlite, check.expression);
    RenderBalanced(check.expression);
    NamedBody(read, ts, p, check.name, body, check.expression);
    assert |CheckTokens(check)| == |body| + 5;
  }

  // ----- lists of definitions -----

  /** One entry of the table body, with the tokens it reads as and the CHECK it declares, if any. */
  datatype Definition = Definition(text: string, tokens: seq<Token>, check: Option<NamedCheck>)

  ghost predicate IsDefinition(d: Definition) {
    && Reads(d.text, d.tokens, Some(','))
    && Reads(d.text, d.tokens, Some(')'))
    && (d.check.None? ==> Quiet(d.tokens, 0))
    && (d.check.Some? ==> IsBound(d.check.value.expression) && d.tokens == CheckTokens(d.check.value))
  }

  function Texts(ds: seq<Definition>): seq<string> {
    if ds == [] then [] else [ds[0].text] + Texts(ds[1..])
  }

  function JoinTokens(ds: seq<Definition>): seq<Token> {
    if ds == [] then []
    else if |ds| == 1 then ds[0].tokens
    else ds[0].tokens + [Punctuation(",")] + JoinTokens(ds[1..])
  }

  function Declarations(ds: seq<Definition>): seq<CheckShape> {
    if ds == [] then []
    else OwnDeclaration(ds[0]) + Declarations(ds[1..])
  }

  lemma {:induction false} TextsConcat(a: seq<Definition>, b: seq<Definition>)
    ensures Texts(a + b) == Texts(a) + Texts(b)
  {
    if a == [] {
      assert a + b == b;
    } else {
      assert (a + b)[1..] == a[1..] + b;
      TextsConcat(a[1..], b);
    }
  }

  lemma {:induction false} DeclarationsConcat(a: seq<Definition>, b: seq<Definition>)
    ensures Declarations(a + b) == Declarations(a) + Declarations(b)
  {
    if a == [] {
      assert a + b == b && [] + Declarations(b) == Declarations(b);
    } else {
      var rest := a[1..];
      DeclarationsConcat(rest, b);
      DeclarationsFirst(a[0], rest + b);
      DeclarationsFirst(a[0], rest);
      Assoc([a[0]], rest, b);
      assert [a[0]] + rest == a;
      Assoc(OwnDeclaration(a[0]), Declarations(rest), Declarations(b));
    }
  }

  function OwnDeclaration(d: Definition): seq<CheckShape> {
    if d.check.Some? then [Declared(d.check.value)] else []
  }

  lemma {:induction false} DeclarationsFirst(d: Definition, ds: seq<Definition>)
    ensures Declarations([d] + ds) == OwnDeclaration(d) + Declarations(ds)
  {
    assert ([d] + ds)[1..] == ds;
  }

  lemma LexNothing(next: Option<char>)
    ensures Reads("", [], next)
  {
    forall reader, rest | First(rest, None) == next ensures Lexes(reader, "", [], rest) {
      assert "" + rest == rest;
      if Lex(reader, rest).Some? {
        assert [] + Lex(reader, rest).value == Lex(reader, rest).value;
      }
    }
  }

  lemma {:induction false} LexDefinitions(ds: seq<Definition>)
    requires forall i :: 0 <= i < |ds| ==> IsDefinition(ds[i])
    ensures Reads(Join(Texts(ds)), JoinTokens(ds), Some(')'))
  {
    if ds == [] {
      LexNothing(Some(')'));
    } else if |ds| == 1 {
      assert Texts(ds) == [ds[0].text];
    } else {
      LexDefinitions(ds[1..]);
      assert Texts(ds)[1..] == Texts(ds[1..]);
      assert |Texts(ds[1..])| > 0;
      var more, moreTokens := Join(Texts(ds[1..])), JoinTokens(ds[1..]);
      LexComma(First(more, Some(')')));
      Compose(ds[0].text, ds[0].tokens, ", ", [Punctuation(",")], First(more, Some(')')));
      Compose(ds[0].text + ", ", ds[0].tokens + [Punctuation(",")], more, moreTokens, Some(')'));
    }
  }

  /** The reader recovers the tree of the CHECK, if any, from its tokens. */
  ghost predicate ReadsOwn(read: BodyReader, d: Definition) {
    d.check.Some? && IsBound(d.check.value.expression) ==>
      read(Tokens(Sqlite, d.check.value.expression)) == Some(d.check.value.expression)
  }

  /** Wherever its tokens stand at table level, the definition declares its own CHECK and nothing else. */
  ghost predicate Scans(read: BodyReader, d: Definition) {
    forall ts, p: nat {:trigger At(ts, p, d.tokens)} ::
      At(ts, p, d.tokens) ==> Yields(read, ts, p, p + |d.tokens|, OwnDeclaration(d))
  }

  lemma DefinitionScan(read: BodyReader, d: Definition)
    requires IsDefinition(d) && ReadsOwn(read, d)
    ensures Scans(read, d)
  {
    forall ts, p: nat | At(ts, p, d.tokens) ensures Yields(read, ts, p, p + |d.tokens|, OwnDeclaration(d)) {
      if d.check.None? {
        QuietDefinition(read, ts, p, d.tokens);
      } else {
        CheckScan(read, ts, p, d.check.value);
      }
    }
  }

  lemma ListedAt(ts: seq<Token>, p: nat, head: seq<Token>, tail: seq<Token>)
    requires At(ts, p, head + [Punctuation(",")] + tail)
    ensures
      var q := p + |head|;
      At(ts, p, head) && q < |ts| && ts[q] == Punctuation(",") && At(ts, q + 1, tail)
  {
    AtConcat(ts, p, head + [Punctuation(",")], tail);
    AtConcat(ts, p, head, [Punctuation(",")]);
    AtTail(ts, p + |head|, [Punctuation(",")]);
  }

  lemma {:induction false} FirstOfMany(ds: seq<Definition>)
    requires |ds| > 1
    ensures JoinTokens(ds) == ds[0].tokens + [Punctuation(",")] + JoinTokens(ds[1..])
    ensures Declarations(ds) == OwnDeclaration(ds[0]) + Declarations(ds[1..])
  {
  }

  /** A definition and its comma, in front of what the rest declares. */
  lemma FirstScan(read: BodyReader, ts: seq<Token>, p: nat, d: Definition, r: nat, rest: seq<CheckShape>)
    requires Scans(read, d) && At(ts, p, d.tokens)
    requires p + |d.tokens| < |ts| && ts[p + |d.tokens|] == Punctuation(",")
    requires Yields(read, ts, p + |d.tokens| + 1, r, rest)
    ensures Yields(read, ts, p, r, OwnDeclaration(d) + rest)
  {
    var q := p + |d.tokens|;
    ScanComma(read, ts, q);
    YieldsThen(read, ts, q, q + 1, r, [], rest);
    assert [] + rest == rest;
    YieldsThen(read, ts, p, q, r, OwnDeclaration(d), rest);
  }

  lemma OnlyDefinition(d: Definition)
    ensures JoinTokens([d]) == d.tokens && Declarations([d]) == OwnDeclaration(d)
  {
    assert [d][1..] == [] && OwnDeclaration(d) + [] == OwnDeclaration(d);
  }

  lemma {:induction false} DefinitionsScan(read: BodyReader, ts: seq<Token>, p: nat, ds: seq<Definition>)
    requires forall i :: 0 <= i < |ds| ==> Scans(read, ds[i])
    requires At(ts, p, JoinTokens(ds))
    ensures Yields(read, ts, p, p + |JoinTokens(ds)|, Declarations(ds))
    decreases |ds|
  {
    if ds == [] {
      PassesHere(read, ts, p);
      YieldsNothing(read, ts, p, p);
    } else if |ds| == 1 {
      assert ds == [ds[0]];
      OnlyDefinition(ds[0]);
    } else {
      FirstOfMany(ds);
      ListedAt(ts, p, ds[0].tokens, JoinTokens(ds[1..]));
      DefinitionsScan(read, ts, p + |ds[0].tokens| + 1, ds[1..]);
      FirstScan(read, ts, p, ds[0], p + |JoinTokens(ds)|, Declarations(ds[1..]));
    }
  }

  // ----- the definitions of a planned table -----

  lemma {:induction false} ColumnDefinitions(columns: seq<PlannedColumn>) returns (ds: seq<Definition>)
    ensures Texts(ds) == ColumnsSql(columns) && Declarations(ds) == []
    ensures forall i :: 0 <= i < |ds| ==> IsDefinition(ds[i])
  {
    if columns == [] {
      ds := [];
    } else {
      ColumnReads(columns[0]);
      var ts :| IsPartReading(ColumnSql(columns[0]), ts);
      var rest := ColumnDefinitions(columns[1..]);
      ds := [Definition(ColumnSql(columns[0]), ts, None)] + rest;
      assert ds[1..] == rest;
    }
  }

  lemma LexConstraint(next: Option<char>)
    ensures Reads("CONSTRAINT ", [Keyword("CONSTRAINT")], next)
  {
    LexName("CONSTRAINT", Some(' '));
    LexBlank(next);
    Compose("CONSTRAINT", [Keyword("CONSTRAINT")], " ", [], next);
    assert "CONSTRAINT" + " " == "CONSTRAINT " && [Keyword("CONSTRAINT")] + [] == [Keyword("CONSTRAINT")];
  }

  lemma LexCheckOpen(next: Option<char>)
    ensures Reads(" CHECK (", [Keyword("CHECK"), Punctuation("(")], next)
  {
    LexSpacedNameOpen("CHECK", next);
    assert " " + ("CHECK" + " (") == " CHECK (";
  }

  lemma LexNamedBody(name: string, id: seq<Token>, body: string, bodyTokens: seq<Token>, next: Option<char>)
    requires name != [] && Reads(name, id, Some(' ')) && Reads(body, bodyTokens, Some(')'))
    ensures Reads("CONSTRAINT " + name + " CHECK (" + body + ")",
                  [Keyword("CONSTRAINT")] + id + [Keyword("CHECK"), Punctuation("(")] + bodyTokens
                  + [Punctuation(")")], next)
  {
    var head, open := [Keyword("CONSTRAINT")], [Keyword("CHECK"), Punctuation("(")];
    LexConstraint(Some(name[0]));
    Compose("CONSTRAINT ", head, name, id, Some(' '));
    LexCheckOpen(First(body, Some(')')));
    Compose("CONSTRAINT " + name, head + id, " CHECK (", open, First(body, Some(')')));
    Compose("CONSTRAINT " + name + " CHECK (", head + id + open, body, bodyTokens, Some(')'));
    LexMark(')', next);
    Compose("CONSTRAINT " + name + " CHECK (" + body, head + id + open + bodyTokens, ")", [Punctuation(")")], next);
  }

  lemma LexCheckSql(check: NamedCheck, next: Option<char>)
    requires IsBound(check.expression)
    ensures Reads(CheckSql(check), CheckTokens(check), next)
  {
    LexEnclosed('\"', check.name, Some(' '));
    LexRender(Sqlite, check.expression, Some(')'));
    LexNamedBody(QuoteIdentifier(Sqlite, check.name), [Token(Identifier, check.name)],
                 Render(Sqlite, check.expression), Tokens(Sqlite, check.expression), next);
    CheckTokensShape(check);
  }

  lemma CheckTokensShape(check: NamedCheck)
    requires IsBound(check.expression)
    ensures [Keyword("CONSTRAINT")] + [Token(Identifier, check.name)] + [Keyword("CHECK"), Punctuation("(")]
            + Tokens(Sqlite, check.expression) + [Punctuation(")")] == CheckTokens(check)
  {
  }

  function CheckDefinitions(checks: seq<NamedCheck>): seq<Definition>
    requires AllBound(checks)
  {
    if checks == [] then []
    else [CheckDefinition(checks[0])] + CheckDefinitions(checks[1..])
  }

  function CheckDefinition(check: NamedCheck): Definition
    requires IsBound(check.expression)
  {
    Definition(CheckSql(check), CheckTokens(check), Some(check))
  }

  lemma CheckDefinitionHolds(check: NamedCheck)
    requires IsBound(check.expression)
    ensures IsDefinition(CheckDefinition(check))
  {
    LexCheckSql(check, Some(','));
    LexCheckSql(check, Some(')'));
  }

  lemma {:induction false} MoreDefinitions(d: Definition, ds: seq<Definition>)
    requires IsDefinition(d) && forall i :: 0 <= i < |ds| ==> IsDefinition(ds[i])
    ensures forall i :: 0 <= i < |[d] + ds| ==> IsDefinition(([d] + ds)[i])
    ensures Texts([d] + ds) == [d.text] + Texts(ds)
    ensures Declarations([d] + ds) == OwnDeclaration(d) + Declarations(ds)
  {
    assert ([d] + ds)[1..] == ds;
    DeclarationsFirst(d, ds);
  }

  function DeclaredChecks(checks: seq<NamedCheck>): seq<CheckShape> {
    seq(|checks|, i requires 0 <= i < |checks| => Declared(checks[i]))
  }

  lemma {:induction false} CheckDefinitionsHold(checks: seq<NamedCheck>)
    requires AllBound(checks)
    ensures Texts(CheckDefinitions(checks)) == ChecksSql(checks)
    ensures Declarations(CheckDefinitions(checks)) == DeclaredChecks(checks)
    ensures forall i :: 0 <= i < |CheckDefinitions(checks)| ==> IsDefinition(CheckDefinitions(checks)[i])
  {
    if checks != [] {
      CheckDefinitionsHold(checks[1..]);
      CheckDefinitionHolds(checks[0]);
      MoreDefinitions(CheckDefinition(checks[0]), CheckDefinitions(checks[1..]));
      assert DeclaredChecks(checks) == [Declared(checks[0])] + DeclaredChecks(checks[1..]);
    }
  }

  // Keys and foreign keys.

  function NameTokens(names: seq<string>): seq<Token> {
    if names == [] then []
    else [Token(Identifier, names[0])]
         + if |names| == 1 then [] else [Punctuation(",")] + NameTokens(names[1..])
  }

  lemma {:induction false} NamesPlain(names: seq<string>)
    ensures forall i :: 0 <= i < |NameTokens(names)| ==>
              Unnested(NameTokens(names)[i]) && !IsWord(NameTokens(names)[i], "CHECK")
  {
    Uncomma();
    if |names| > 1 {
      NamesPlain(names[1..]);
    }
  }

  lemma {:induction false} NamesShape(names: seq<string>)
    requires |names| > 1
    ensures Join(QuoteAll(names)) == QuoteIdentifier(Sqlite, names[0]) + ", " + Join(QuoteAll(names[1..]))
  {
    assert QuoteAll(names)[0] == QuoteIdentifier(Sqlite, names[0]) && QuoteAll(names)[1..] == QuoteAll(names[1..]);
  }

  lemma {:induction false} NamesTokens(names: seq<string>)
    requires |names| > 1
    ensures NameTokens(names) == [Token(Identifier, names[0])] + [Punctuation(",")] + NameTokens(names[1..])
  {
  }

  lemma {:induction false} OneName(names: seq<string>)
    requires |names| == 1
    ensures Join(QuoteAll(names)) == QuoteIdentifier(Sqlite, names[0]) && NameTokens(names) == [Token(Identifier, names[0])]
  {
    var quoted := [QuoteIdentifier(Sqlite, names[0])];
    assert names[1..] == [];
    assert QuoteAll([]) == [] && quoted + [] == quoted;
    assert QuoteAll(names) == quoted;
    assert [Token(Identifier, names[0])] + [] == [Token(Identifier, names[0])];
  }

  lemma {:induction false} LexNames(names: seq<string>)
    ensures Reads(Join(QuoteAll(names)), NameTokens(names), Some(')'))
  {
    if names == [] {
      LexNothing(Some(')'));
    } else if |names| == 1 {
      LexEnclosed('\"', names[0], Some(')'));
      OneName(names);
    } else {
      LexNames(names[1..]);
      NamesShape(names);
      NamesTokens(names);
      LexEnclosed('\"', names[0], Some(','));
      LexListed(QuoteIdentifier(Sqlite, names[0]), [Token(Identifier, names[0])], Join(QuoteAll(names[1..])),
                NameTokens(names[1..]));
    }
  }

  lemma LexListed(first: string, id: seq<Token>, more: string, moreTokens: seq<Token>)
    requires Reads(first, id, Some(',')) && Reads(more, moreTokens, Some(')'))
    ensures Reads(first + ", " + more, id + [Punctuation(",")] + moreTokens, Some(')'))
  {
    LexComma(First(more, Some(')')));
    Compose(first, id, ", ", [Punctuation(",")], First(more, Some(')')));
    Compose(first + ", ", id + [Punctuation(",")], more, moreTokens, Some(')'));
  }

  lemma Uncomma()
    ensures Unnested(Punctuation(","))
  {
    assert ","[0] != "("[0] && ","[0] != ")"[0];
  }

  /** `(names)` after a text that ends with the opening parenthesis. */
  lemma {:induction false} LexNameGroup(prefix: string, words: seq<Token>, names: seq<string>, next: Option<char>)
    requires forall n: Option<char> :: Reads(prefix, words, n)
    ensures Reads(prefix + Join(QuoteAll(names)) + ")", words + NameTokens(names) + [Punctuation(")")], next)
  {
    LexNames(names);
    var list := Join(QuoteAll(names));
    Compose(prefix, words, list, NameTokens(names), Some(')'));
    LexMark(')', next);
    Compose(prefix + list, words + NameTokens(names), ")", [Punctuation(")")], next);
  }

  lemma {:induction false} NamesQuiet(names: seq<string>)
    ensures Quiet([Punctuation("(")] + NameTokens(names) + [Punctuation(")")], 0)
  {
    NamesPlain(names);
    BalancedPlain(NameTokens(names));
    BalancedParens(NameTokens(names));
  }

  lemma LexTwoWordsOpen(v: string, w: string, next: Option<char>)
    requires PlainWord(v) && PlainWord(w)
    ensures Reads(v + (" " + (w + " (")), [Keyword(v), Keyword(w), Punctuation("(")], next)
  {
    LexName(v, Some(' '));
    LexSpacedNameOpen(w, next);
    Compose(v, [Keyword(v)], " " + (w + " ("), [Keyword(w), Punctuation("(")], next);
    assert [Keyword(v)] + [Keyword(w), Punctuation("(")] == [Keyword(v), Keyword(w), Punctuation("(")];
  }

  predicate Silent(words: seq<Token>) {
    forall i :: 0 <= i < |words| ==> Unnested(words[i]) && !IsWord(words[i], "CHECK")
  }

  function KeyTokens(v: string, names: seq<string>): seq<Token> {
    [Keyword(v), Keyword("KEY"), Punctuation("(")] + NameTokens(names) + [Punctuation(")")]
  }

  lemma KeyWords()
    ensures Silent([Keyword("PRIMARY"), Keyword("KEY")]) && Silent([Keyword("FOREIGN"), Keyword("KEY")])
  {
    UpperFixed("PRIMARY");
    UpperFixed("FOREIGN");
    UpperFixed("KEY");
  }

  lemma {:induction false} LexKey(names: seq<string>, next: Option<char>)
    ensures Reads("PRIMARY KEY (" + Join(QuoteAll(names)) + ")", KeyTokens("PRIMARY", names), next)
    ensures Reads("FOREIGN KEY (" + Join(QuoteAll(names)) + ")", KeyTokens("FOREIGN", names), next)
    ensures Quiet(KeyTokens("PRIMARY", names), 0) && Quiet(KeyTokens("FOREIGN", names), 0)
  {
    forall n: Option<char>
      ensures Reads("PRIMARY KEY (", [Keyword("PRIMARY"), Keyword("KEY"), Punctuation("(")], n)
      ensures Reads("FOREIGN KEY (", [Keyword("FOREIGN"), Keyword("KEY"), Punctuation("(")], n)
    {
      LexTwoWordsOpen("PRIMARY", "KEY", n);
      assert "PRIMARY" + (" " + ("KEY" + " (")) == "PRIMARY KEY (";
      LexTwoWordsOpen("FOREIGN", "KEY", n);
      assert "FOREIGN" + (" " + ("KEY" + " (")) == "FOREIGN KEY (";
    }
    LexNameGroup("PRIMARY KEY (", [Keyword("PRIMARY"), Keyword("KEY"), Punctuation("(")], names, next);
    LexNameGroup("FOREIGN KEY (", [Keyword("FOREIGN"), Keyword("KEY"), Punctuation("(")], names, next);
    KeyQuiet("PRIMARY", names);
    KeyQuiet("FOREIGN", names);
  }

  lemma KeyQuiet(v: string, names: seq<string>)
    requires v == "PRIMARY" || v == "FOREIGN"
    ensures Quiet(KeyTokens(v, names), 0)
  {
    KeyWords();
    NamesQuiet(names);
    var words, group := [Keyword(v), Keyword("KEY")], [Punctuation("(")] + NameTokens(names) + [Punctuation(")")];
    BalancedPlain(words);
    QuietConcat(words, group, 0);
    assert KeyTokens(v, names) == words + group;
  }

  function ActionTokens(action: Action): seq<Token> {
    match action
    case Cascade => [Keyword("CASCADE")]
    case Restrict => [Keyword("RESTRICT")]
    case SetNull => [Keyword("SET"), Keyword("NULL")]
    case NoAction => [Keyword("NO"), Keyword("ACTION")]
  }

  function ClauseTokens(event: string, action: Option<Action>): seq<Token> {
    if action.None? then [] else [Keyword("ON"), Keyword(event)] + ActionTokens(action.value)
  }

  lemma LexAction(action: Action, next: Option<char>)
    requires BreaksName(next)
    ensures Reads(" " + ActionSql(action), ActionTokens(action), next)
  {
    match action
    case Cascade => LexSpacedName("CASCADE", next);
    case Restrict => LexSpacedName("RESTRICT", next);
    case SetNull =>
      LexTwoNames("SET", "NULL", next);
      assert " " + "SET" + (" " + "NULL") == " " + "SET NULL";
    case NoAction =>
      LexTwoNames("NO", "ACTION", next);
      assert " " + "NO" + (" " + "ACTION") == " " + "NO ACTION";
  }

  lemma LexClause(event: string, action: Option<Action>, next: Option<char>)
    requires PlainWord(event) && BreaksName(next)
    ensures Reads(ActionClause(event, action), ClauseTokens(event, action), next)
  {
    if action.None? {
      LexNothing(next);
    } else {
      LexTwoNames("ON", event, Some(' '));
      LexAction(action.value, next);
      var head := " " + "ON" + (" " + event);
      Compose(head, [Keyword("ON"), Keyword(event)], " " + ActionSql(action.value), ActionTokens(action.value), next);
      ClauseText(event, ActionSql(action.value));
    }
  }

  lemma ClauseText(event: string, action: string)
    ensures " " + "ON" + (" " + event) + (" " + action) == " ON " + event + " " + action
  {
    assert " " + "ON" + (" " + event) == " ON " + event;
  }

  lemma ClauseSilent(event: string, action: Option<Action>)
    requires event == "DELETE" || event == "UPDATE"
    ensures Quiet(ClauseTokens(event, action), 0)
  {
    UpperFixed("ON");
    UpperFixed(event);
    if action.Some? {
      var ts := ActionTokens(action.value);
      forall i | 0 <= i < |ts| ensures Unnested(ts[i]) && !IsWord(ts[i], "CHECK") {
        UpperFixed(ts[i].text);
      }
    }
    BalancedPlain(ClauseTokens(event, action));
  }

  function ReferenceTokens(fk: ForeignKey): seq<Token> {
    [Keyword("REFERENCES"), Token(Identifier, fk.table), Punctuation("(")] + NameTokens(fk.targets)
    + [Punctuation(")")]
  }

  function ForeignKeyTokens(fk: ForeignKey): seq<Token> {
    KeyTokens("FOREIGN", fk.columns) + ReferenceTokens(fk)
    + ClauseTokens("DELETE", fk.onDelete) + ClauseTokens("UPDATE", fk.onUpdate)
  }

  lemma LexReferences(fk: ForeignKey, next: Option<char>)
    ensures Reads(" REFERENCES " + QuoteIdentifier(Sqlite, fk.table) + " (" + Join(QuoteAll(fk.targets)) + ")",
                  ReferenceTokens(fk), next)
  {
    var table, id := QuoteIdentifier(Sqlite, fk.table), [Token(Identifier, fk.table)];
    var prefix := " REFERENCES " + table + " (";
    var words := [Keyword("REFERENCES")] + id + [Punctuation("(")];
    forall n: Option<char> ensures Reads(prefix, words, n) {
      LexPaddedName("REFERENCES", Some(table[0]));
      assert " " + "REFERENCES" + " " == " REFERENCES ";
      LexEnclosed('\"', fk.table, Some(' '));
      Compose(" REFERENCES ", [Keyword("REFERENCES")], table, id, Some(' '));
      LexBlank(Some('('));
      LexMark('(', n);
      Compose(" ", [], "(", [Punctuation("(")], n);
      assert " " + "(" == " (" && [] + [Punctuation("(")] == [Punctuation("(")];
      Compose(" REFERENCES " + table, [Keyword("REFERENCES")] + id, " (", [Punctuation("(")], n);
    }
    LexNameGroup(prefix, words, fk.targets, next);
    assert words == [Keyword("REFERENCES"), Token(Identifier, fk.table), Punctuation("(")];
  }

  lemma ReferencesQuiet(fk: ForeignKey)
    ensures Quiet(ReferenceTokens(fk), 0)
  {
    UpperFixed("REFERENCES");
    NamesQuiet(fk.targets);
    var words := [Keyword("REFERENCES"), Token(Identifier, fk.table)];
    var group := [Punctuation("(")] + NameTokens(fk.targets) + [Punctuation(")")];
    BalancedPlain(words);
    QuietConcat(words, group, 0);
    assert ReferenceTokens(fk) == words + group;
  }

  lemma ForeignKeyText(keySql: string, table: string, targets: string, onDelete: string, onUpdate: string)
    ensures keySql + ")" + (" REFERENCES " + table + " (" + targets + ")") + onDelete + onUpdate
            == keySql + ") REFERENCES " + table + " (" + targets + ")" + onDelete + onUpdate
  {
    assert keySql + ")" + (" REFERENCES " + table + " (" + targets + ")")
        == keySql + (")" + " REFERENCES ") + table + " (" + targets + ")";
    assert ")" + " REFERENCES " == ") REFERENCES ";
  }

  lemma LexForeignKey(fk: ForeignKey, next: Option<char>)
    requires next == Some(',') || next == Some(')')
    ensures Reads(ForeignKeySql(fk), ForeignKeyTokens(fk), next)
  {
    var key := "FOREIGN KEY (" + Join(QuoteAll(fk.columns)) + ")";
    var reference := " REFERENCES " + QuoteIdentifier(Sqlite, fk.table) + " (" + Join(QuoteAll(fk.targets)) + ")";
    var onDelete, onUpdate := ActionClause("DELETE", fk.onDelete), ActionClause("UPDATE", fk.onUpdate);
    LexClause("UPDATE", fk.onUpdate, next);
    assert BreaksName(First(onUpdate, next));
    LexClause("DELETE", fk.onDelete, First(onUpdate, next));
    LexReferences(fk, First(onDelete, First(onUpdate, next)));
    LexKey(fk.columns, Some(' '));
    Compose(key, KeyTokens("FOREIGN", fk.columns), reference, ReferenceTokens(fk), First(onDelete, First(onUpdate, next)));
    Compose(key + reference, KeyTokens("FOREIGN", fk.columns) + ReferenceTokens(fk),
            onDelete, ClauseTokens("DELETE", fk.onDelete), First(onUpdate, next));
    Compose(key + reference + onDelete,
            KeyTokens("FOREIGN", fk.columns) + ReferenceTokens(fk) + ClauseTokens("DELETE", fk.onDelete),
            onUpdate, ClauseTokens("UPDATE", fk.onUpdate), next);
    ForeignKeyText("FOREIGN KEY (" + Join(QuoteAll(fk.columns)), QuoteIdentifier(Sqlite, fk.table),
                   Join(QuoteAll(fk.targets)), onDelete, onUpdate);
  }

  lemma ForeignKeyQuiet(fk: ForeignKey)
    ensures Quiet(ForeignKeyTokens(fk), 0)
  {
    KeyQuiet("FOREIGN", fk.columns);
    ReferencesQuiet(fk);
    ClauseSilent("DELETE", fk.onDelete);
    ClauseSilent("UPDATE", fk.onUpdate);
    var key, reference := KeyTokens("FOREIGN", fk.columns), ReferenceTokens(fk);
    QuietConcat(key, reference, 0);
    QuietConcat(key + reference, ClauseTokens("DELETE", fk.onDelete), 0);
    QuietConcat(key + reference + ClauseTokens("DELETE", fk.onDelete), ClauseTokens("UPDATE", fk.onUpdate), 0);
  }

  function ForeignKeyDefinitions(fks: seq<ForeignKey>): seq<Definition> {
    if fks == [] then []
    else [Definition(ForeignKeySql(fks[0]), ForeignKeyTokens(fks[0]), None)] + ForeignKeyDefinitions(fks[1..])
  }

  lemma {:induction false} ForeignKeyDefinitionsHold(fks: seq<ForeignKey>)
    ensures Texts(ForeignKeyDefinitions(fks)) == ForeignKeysSql(fks)
    ensures Declarations(ForeignKeyDefinitions(fks)) == []
    ensures forall i :: 0 <= i < |ForeignKeyDefinitions(fks)| ==> IsDefinition(ForeignKeyDefinitions(fks)[i])
  {
    if fks != [] {
      ForeignKeyDefinitionsHold(fks[1..]);
      LexForeignKey(fks[0], Some(','));
      LexForeignKey(fks[0], Some(')'));
      ForeignKeyQuiet(fks[0]);
      assert ForeignKeyDefinitions(fks)[1..] == ForeignKeyDefinitions(fks[1..]);
    }
  }

  // ----- the whole statement -----

  lemma KeyDefinitions(key: seq<string>) returns (ds: seq<Definition>)
    ensures Texts(ds) == (if key == [] then [] else [KeySql(key)]) && Declarations(ds) == []
    ensures forall i :: 0 <= i < |ds| ==> IsDefinition(ds[i])
  {
    if key == [] {
      ds := [];
    } else {
      LexKey(key, Some(','));
      LexKey(key, Some(')'));
      ds := [Definition(KeySql(key), KeyTokens("PRIMARY", key), None)];
      assert ds[1..] == [];
    }
  }

  lemma {:induction false} FourTexts(a: seq<Definition>, b: seq<Definition>, c: seq<Definition>, d: seq<Definition>)
    ensures Texts(a + b + c + d) == Texts(a) + Texts(b) + Texts(c) + Texts(d)
  {
    TextsConcat(a, b);
    TextsConcat(a + b, c);
    TextsConcat(a + b + c, d);
  }

  lemma {:induction false} FourDeclarations(a: seq<Definition>, b: seq<Definition>, c: seq<Definition>, d: seq<Definition>)
    ensures Declarations(a + b + c + d) == Declarations(a) + Declarations(b) + Declarations(c) + Declarations(d)
  {
    DeclarationsConcat(a, b);
    DeclarationsConcat(a + b, c);
    DeclarationsConcat(a + b + c, d);
  }

  lemma FourHold(a: seq<Definition>, b: seq<Definition>, c: seq<Definition>, d: seq<Definition>)
    requires AllHold(a) && AllHold(b) && AllHold(c) && AllHold(d)
    ensures AllHold(a + b + c + d)
  {
    TwoHold(a, b);
    TwoHold(a + b, c);
    TwoHold(a + b + c, d);
  }

  ghost predicate AllHold(ds: seq<Definition>) {
    forall i :: 0 <= i < |ds| ==> IsDefinition(ds[i])
  }

  lemma TwoHold(a: seq<Definition>, b: seq<Definition>)
    requires AllHold(a) && AllHold(b)
    ensures AllHold(a + b)
  {
    forall i | 0 <= i < |a + b| ensures IsDefinition((a + b)[i]) {
      assert (a + b)[i] == if i < |a| then a[i] else b[i - |a|];
    }
  }

  lemma QuietDeclarations(own: seq<CheckShape>)
    ensures [] + [] + [] + own == own
  {
  }

  lemma TableDefinitions(table: PlannedTable) returns (ds: seq<Definition>)
    requires AllBound(table.checks)
    ensures Texts(ds) == DefinitionsSql(table)
    ensures Declarations(ds) == DeclaredChecks(table.checks)
    ensures AllHold(ds)
  {
    var columns := ColumnDefinitions(table.columns);
    var key := KeyDefinitions(CompositeKey(table.columns));
    var fks, checks := ForeignKeyDefinitions(table.foreignKeys), CheckDefinitions(table.checks);
    ForeignKeyDefinitionsHold(table.foreignKeys);
    CheckDefinitionsHold(table.checks);
    FourTexts(columns, key, fks, checks);
    FourDeclarations(columns, key, fks, checks);
    QuietDeclarations(DeclaredChecks(table.checks));
    FourHold(columns, key, fks, checks);
    ds := columns + key + fks + checks;
  }

  function TableTokens(name: string, body: seq<Token>): seq<Token> {
    [Keyword("CREATE"), Keyword("TABLE"), Token(Identifier, name), Punctuation("(")] + body
    + [Punctuation(")"), Keyword("STRICT")]
  }

  lemma LexTable(name: string, body: string, bodyTokens: seq<Token>)
    requires Reads(body, bodyTokens, Some(')'))
    ensures Reads("CREATE TABLE " + QuoteIdentifier(Sqlite, name) + " (" + body + ") STRICT",
                  TableTokens(name, bodyTokens), None)
  {
    var table, id := QuoteIdentifier(Sqlite, name), [Token(Identifier, name)];
    LexCreate(table[0]);
    LexEnclosed('\"', name, Some(' '));
    var head, headTokens := "CREATE TABLE ", [Keyword("CREATE"), Keyword("TABLE")];
    Compose(head, headTokens, table, id, Some(' '));
    LexOpenClose(First(body, Some(')')));
    Compose(head + table, headTokens + id, " (", [Punctuation("(")], First(body, Some(')')));
    Compose(head + table + " (", headTokens + id + [Punctuation("(")], body, bodyTokens, Some(')'));
    Compose(head + table + " (" + body, headTokens + id + [Punctuation("(")] + bodyTokens,
            ") STRICT", [Punctuation(")"), Keyword("STRICT")], None);
    assert headTokens + id + [Punctuation("(")]
        == [Keyword("CREATE"), Keyword("TABLE"), Token(Identifier, name), Punctuation("(")];
  }

  lemma LexCreate(c: char)
    ensures Reads("CREATE TABLE ", [Keyword("CREATE"), Keyword("TABLE")], Some(c))
  {
    LexName("CREATE", Some(' '));
    LexPaddedName("TABLE", Some(c));
    Compose("CREATE", [Keyword("CREATE")], " " + "TABLE" + " ", [Keyword("TABLE")], Some(c));
    assert "CREATE" + (" " + "TABLE" + " ") == "CREATE TABLE ";
    assert [Keyword("CREATE")] + [Keyword("TABLE")] == [Keyword("CREATE"), Keyword("TABLE")];
  }

  lemma LexOpenClose(next: Option<char>)
    ensures Reads(" (", [Punctuation("(")], next)
    ensures Reads(") STRICT", [Punctuation(")"), Keyword("STRICT")], None)
  {
    LexBlank(Some('('));
    LexMark('(', next);
    Compose(" ", [], "(", [Punctuation("(")], next);
    assert " " + "(" == " (" && [] + [Punctuation("(")] == [Punctuation("(")];
    LexMark(')', Some(' '));
    LexSpacedName("STRICT", None);
    Compose(")", [Punctuation(")")], " " + "STRICT", [Keyword("STRICT")], None);
    assert ")" + (" " + "STRICT") == ") STRICT";
    assert [Punctuation(")")] + [Keyword("STRICT")] == [Punctuation(")"), Keyword("STRICT")];
  }

  /** A token that neither nests nor opens a table-level CHECK is passed over. */
  lemma ScanPast(read: BodyReader, ts: seq<Token>, p: nat, depth: int)
    requires p < |ts| && Unnested(ts[p]) && (depth != 1 || !IsWord(ts[p], "CHECK"))
    ensures ScanChecks(read, ts, p, depth) == ScanChecks(read, ts, p + 1, depth)
  {
  }

  lemma {:induction false} ScanHead(read: BodyReader, ts: seq<Token>, name: string)
    requires At(ts, 0, [Keyword("CREATE"), Keyword("TABLE"), Token(Identifier, name), Punctuation("(")])
    ensures ScanChecks(read, ts, 0, 0) == ScanChecks(read, ts, 4, 1)
  {
    var head := [Keyword("CREATE"), Keyword("TABLE"), Token(Identifier, name), Punctuation("(")];
    assert ts[0..4] == head;
    assert ts[0] == head[0] && ts[1] == head[1] && ts[2] == head[2] && ts[3] == head[3];
    ScanPast(read, ts, 0, 0);
    ScanPast(read, ts, 1, 0);
    ScanPast(read, ts, 2, 0);
  }

  lemma {:induction false} ScanFoot(read: BodyReader, ts: seq<Token>, p: nat)
    requires At(ts, p, [Punctuation(")"), Keyword("STRICT")]) && |ts| == p + 2
    ensures ScanChecks(read, ts, p, 1) == Some([])
  {
    var foot := [Punctuation(")"), Keyword("STRICT")];
    assert ts[p..p + 2] == foot;
    assert ts[p] == foot[0] && ts[p + 1] == foot[1];
    ScanPast(read, ts, p + 1, 0);
  }

  lemma TableLayout(name: string, body: seq<Token>)
    ensures At(TableTokens(name, body), 0,
               [Keyword("CREATE"), Keyword("TABLE"), Token(Identifier, name), Punctuation("(")])
    ensures At(TableTokens(name, body), 4, body)
    ensures At(TableTokens(name, body), 4 + |body|, [Punctuation(")"), Keyword("STRICT")])
  {
    var head := [Keyword("CREATE"), Keyword("TABLE"), Token(Identifier, name), Punctuation("(")];
    var foot := [Punctuation(")"), Keyword("STRICT")];
    var ts := head + body + foot;
    assert ts[..4] == head && ts[4..4 + |body|] == body && ts[4 + |body|..] == foot;
    assert ts[0..4] == ts[..4] && ts[4 + |body|..4 + |body| + 2] == ts[4 + |body|..];
  }

  lemma {:induction false} StatementScan(read: BodyReader, ts: seq<Token>, name: string, ds: seq<Definition>)
    requires forall i :: 0 <= i < |ds| ==> Scans(read, ds[i])
    requires At(ts, 0, [Keyword("CREATE"), Keyword("TABLE"), Token(Identifier, name), Punctuation("(")])
    requires At(ts, 4, JoinTokens(ds))
    requires At(ts, 4 + |JoinTokens(ds)|, [Punctuation(")"), Keyword("STRICT")])
    requires |ts| == |JoinTokens(ds)| + 6
    ensures ScanChecks(read, ts, 0, 0) == Some(Declarations(ds))
  {
    ScanHead(read, ts, name);
    DefinitionsScan(read, ts, 4, ds);
    ScanFoot(read, ts, 4 + |JoinTokens(ds)|);
    assert ScanChecks(read, ts, 4, 1) == Appended(Declarations(ds), Some([]));
    assert Declarations(ds) + [] == Declarations(ds);
  }

  lemma DefinitionsRead(ds: seq<Definition>)
    requires AllHold(ds)
    ensures forall i :: 0 <= i < |ds| ==> Scans(ConditionReader(), ds[i])
  {
    forall i | 0 <= i < |ds| ensures Scans(ConditionReader(), ds[i]) {
      if ds[i].check.Some? {
        ParseRendered(false, Sqlite, ds[i].check.value.expression);
      }
      DefinitionScan(ConditionReader(), ds[i]);
    }
  }

  /** From the compiled CREATE TABLE the catalog reader recovers exactly the declared CHECKs: all of
      them, in order, with their names and their trees, whatever the names, literals and other
      constraints contain. */
  lemma TableChecksRoundTrip(u: Alphabet, table: PlannedTable)
    requires AllBound(table.checks)
    ensures SqliteChecks(u, CreateTableSql(table)) == Some(DeclaredChecks(table.checks))
  {
    var ds := TableDefinitions(table);
    LexDefinitions(ds);
    LexTable(table.name, Join(DefinitionsSql(table)), JoinTokens(ds));
    LexWhole(u, false, CreateTableSql(table), TableTokens(table.name, JoinTokens(ds)));
    TableLayout(table.name, JoinTokens(ds));
    DefinitionsRead(ds);
    StatementScan(ConditionReader(), TableTokens(table.name, JoinTokens(ds)), table.name, ds);
  }
}
