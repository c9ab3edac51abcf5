/** SQLite column definitions as compiled, and how they read inside a CREATE TABLE. */
module SchemaColumns {
  import opened TextCodec
  import opened CheckTree
  import opened CheckLexer
  import opened CheckParser
  import opened CheckRender
  import opened CheckRoundTrip
  import opened CheckParseBack
  import opened CheckCatalog
  import opened SchemaSql
  import opened TokenBalance

  // ----- column definitions -----

  datatype StorageClass = IntegerClass | RealClass | TextClass | BlobClass

  datatype Collation = Binary | NoCase | RTrim

  datatype ServerDefault = NoServerDefault | CurrentTimestamp | LiteralDefault(value: Value)

  /** `compositeKey` marks one of several primary-key columns, whose key is a table constraint. */
  datatype PlannedColumn = PlannedColumn(
    name: string, storage: StorageClass, collation: Option<Collation>,
    primaryKey: bool, compositeKey: bool, autoIncrement: bool, nullable: bool, default: ServerDefault)

  function StorageSql(storage: StorageClass): string {
    match storage
    case IntegerClass => "INTEGER"
    case RealClass => "REAL"
    case TextClass => "TEXT"
    case BlobClass => "BLOB"
  }

  function CollationSql(collation: Collation): string {
    match collation
    case Binary => "BINARY"
    case NoCase => "NOCASE"
    case RTrim => "RTRIM"
  }

  /** Key columns are NOT NULL, except the INTEGER row identifier. */
  predicate RequiresNotNull(c: PlannedColumn) {
    if c.compositeKey then true
    else if c.primaryKey then !c.storage.IntegerClass?
    else !c.nullable
  }

  function ClockSql(format: string, suffix: string): string {
    "strftime('" + format + "', 'now') || '" + suffix + "'"
  }

  const TIMESTAMP_SQL := ClockSql("%Y-%m-%dT%H:%M:%f", "000Z")

  function DefaultParts(default: ServerDefault): seq<string> {
    match default
    case NoServerDefault => []
    case CurrentTimestamp => ["DEFAULT (" + TIMESTAMP_SQL + ")"]
    case LiteralDefault(value) => ["DEFAULT " + RenderDefault(Sqlite, value)]
  }

  function ColumnParts(c: PlannedColumn): seq<string> {
    [QuoteIdentifier(Sqlite, c.name), StorageSql(c.storage)]
    + (if c.collation.Some? && !c.collation.value.Binary? then ["COLLATE " + CollationSql(c.collation.value)] else [])
    + (if c.primaryKey && !c.compositeKey then ["PRIMARY KEY"] else [])
    + (if c.autoIncrement then ["AUTOINCREMENT"] else [])
    + (if RequiresNotNull(c) then ["NOT NULL"] else [])
    + DefaultParts(c.default)
  }

  function Spaced(parts: seq<string>): string {
    if parts == [] then "" else if |parts| == 1 then parts[0] else parts[0] + " " + Spaced(parts[1..])
  }

  function ColumnSql(c: PlannedColumn): string {
    Spaced(ColumnParts(c))
  }

  // ----- how the parts read -----

  /** Followed by a blank or the end of a definition, the text reads as these tokens: balanced, and with
      no bare CHECK at their own level. */
  ghost predicate IsPartReading(text: string, ts: seq<Token>) {
    && Reads(text, ts, Some(' ')) && Reads(text, ts, Some(',')) && Reads(text, ts, Some(')'))
    && Quiet(ts, 0)
  }

  ghost predicate IsPart(text: string) {
    exists ts :: IsPartReading(text, ts)
  }

  lemma TwoParts(a: string, b: string)
    requires IsPart(a) && IsPart(b)
    ensures IsPart(a + " " + b)
  {
    var ta :| IsPartReading(a, ta);
    var tb :| IsPartReading(b, tb);
    LexSpacedPair(a, ta, b, tb, Some(' '));
    LexSpacedPair(a, ta, b, tb, Some(','));
    LexSpacedPair(a, ta, b, tb, Some(')'));
    QuietConcat(ta, tb, 0);
    assert IsPartReading(a + " " + b, ta + tb);
  }

  lemma LexSpacedPair(a: string, ta: seq<Token>, b: string, tb: seq<Token>, next: Option<char>)
    requires Reads(a, ta, Some(' ')) && Reads(b, tb, next)
    ensures Reads(a + " " + b, ta + tb, next)
  {
    LexBlank(First(b, next));
    Compose(a, ta, " ", [], First(b, next));
    assert ta + [] == ta;
    Compose(a + " ", ta, b, tb, next);
  }

  ghost predicate AllParts(parts: seq<string>) {
    forall i :: 0 <= i < |parts| ==> IsPart(parts[i])
  }

  lemma {:induction false} SpacedReads(parts: seq<string>)
    requires parts != [] && AllParts(parts)
    ensures IsPart(Spaced(parts))
  {
    assert IsPart(parts[0]);
    if |parts| > 1 {
      SpacedReads(parts[1..]);
      TwoParts(parts[0], Spaced(parts[1..]));
    }
  }

  lemma WordPart(w: string)
    requires PlainWord(w) && Upper(w) != "CHECK"
    ensures IsPart(w)
  {
    LexName(w, Some(' '));
    LexName(w, Some(','));
    LexName(w, Some(')'));
    BalancedPlain([Keyword(w)]);
    assert IsPartReading(w, [Keyword(w)]);
  }

  lemma WordsPart(v: string, w: string)
    requires PlainWord(v) && Upper(v) != "CHECK" && PlainWord(w) && Upper(w) != "CHECK"
    ensures IsPart(v + " " + w)
  {
    WordPart(v);
    WordPart(w);
    TwoParts(v, w);
  }

  lemma UpperLength(w: string, other: string)
    requires |w| != |other|
    ensures Upper(w) != other
  {
  }

  lemma NamePart(name: string)
    ensures IsPart(QuoteIdentifier(Sqlite, name))
  {
    var ts := [Token(Identifier, name)];
    LexEnclosed('\"', name, Some(' '));
    LexEnclosed('\"', name, Some(','));
    LexEnclosed('\"', name, Some(')'));
    BalancedPlain(ts);
    assert IsPartReading(QuoteIdentifier(Sqlite, name), ts);
  }

  lemma StoragePart(storage: StorageClass)
    ensures IsPart(StorageSql(storage))
  {
    UpperLength(StorageSql(storage), "CHECK");
    WordPart(StorageSql(storage));
  }

  lemma CollationPart(collation: Collation)
    requires !collation.Binary?
    ensures IsPart("COLLATE " + CollationSql(collation))
  {
    var name := CollationSql(collation);
    UpperLength("COLLATE", "CHECK");
    UpperFixed(name);
    assert name[0] != "CHECK"[0];
    WordsPart("COLLATE", name);
    assert "COLLATE" + " " == "COLLATE ";
  }

  lemma KeywordParts()
    ensures IsPart("PRIMARY KEY") && IsPart("AUTOINCREMENT") && IsPart("NOT NULL")
  {
    UpperLength("PRIMARY", "CHECK");
    UpperLength("KEY", "CHECK");
    UpperLength("NOT", "CHECK");
    UpperLength("NULL", "CHECK");
    UpperLength("AUTOINCREMENT", "CHECK");
    WordsPart("PRIMARY", "KEY");
    assert "PRIMARY" + " " + "KEY" == "PRIMARY KEY";
    WordPart("AUTOINCREMENT");
    WordsPart("NOT", "NULL");
    assert "NOT" + " " + "NULL" == "NOT NULL";
  }

  // ----- defaults -----

  lemma DefaultQuiet(value: Value)
    ensures Quiet(DefaultTokens(Sqlite, value), 0)
  {
    if value.Text? && HasNul(value.text) {
      LeafBalanced(LiteralOf(value));
      BalancedParens(TextTokens(Sqlite, value.text));
    } else {
      UpperFixed("NULL");
      UpperLength("NULL", "CHECK");
      BalancedPlain(DefaultTokens(Sqlite, value));
    }
  }

  lemma LiteralPart(value: Value)
    ensures IsPart("DEFAULT " + RenderDefault(Sqlite, value))
  {
    var sql := RenderDefault(Sqlite, value);
    LexDefault(Sqlite, value, Some(' '));
    LexDefault(Sqlite, value, Some(','));
    LexDefault(Sqlite, value, Some(')'));
    DefaultQuiet(value);
    assert IsPartReading(sql, DefaultTokens(Sqlite, value));
    UpperLength("DEFAULT", "CHECK");
    WordPart("DEFAULT");
    TwoParts("DEFAULT", sql);
    assert "DEFAULT" + " " == "DEFAULT ";
  }

  lemma LexBar(next: Option<char>)
    ensures Reads("|", [Punctuation("|")], next)
  {
    forall reader, rest | First(rest, None) == next ensures Lexes(reader, "|", [Punctuation("|")], rest) {
      var s := "|" + rest;
      assert s[..1] == "|";
      LexOne(reader, "|", Punctuation("|"), rest);
    }
  }

  lemma {:induction false} QuietIsBalanced(ts: seq<Token>, depth: nat)
    requires Quiet(ts, depth)
    ensures Balanced(ts, depth)
    decreases |ts|
  {
    if ts != [] {
      var next := if ts[0] == Punctuation("(") then depth + 1
                  else if ts[0] == Punctuation(")") then depth - 1 else depth;
      QuietIsBalanced(ts[1..], next);
    }
  }

  lemma LexEnclosing(text: string, ts: seq<Token>, next: Option<char>)
    requires Reads(text, ts, Some(')'))
    ensures Reads("(" + text + ")", [Punctuation("(")] + ts + [Punctuation(")")], next)
  {
    LexMark('(', First(text, Some(')')));
    Compose("(", [Punctuation("(")], text, ts, Some(')'));
    LexMark(')', next);
    Compose("(" + text, [Punctuation("(")] + ts, ")", [Punctuation(")")], next);
  }

  lemma ParenPart(text: string)
    requires IsPart(text)
    ensures IsPart("(" + text + ")")
  {
    var ts :| IsPartReading(text, ts);
    LexEnclosing(text, ts, Some(' '));
    LexEnclosing(text, ts, Some(','));
    LexEnclosing(text, ts, Some(')'));
    QuietIsBalanced(ts, 0);
    BalancedParens(ts);
    assert IsPartReading("(" + text + ")", [Punctuation("(")] + ts + [Punctuation(")")]);
  }

  lemma LiteralTextPart(text: string)
    requires forall i :: 0 <= i < |text| ==> text[i] != '\''
    ensures IsPart("'" + text + "'")
  {
    var ts := [Token(LiteralText, text)];
    Undoubled('\'', text);
    LexEnclosed('\'', text, Some(' '));
    LexEnclosed('\'', text, Some(','));
    LexEnclosed('\'', text, Some(')'));
    BalancedPlain(ts);
    assert IsPartReading("'" + text + "'", ts);
  }

  lemma LexCommaPair(a: string, ta: seq<Token>, b: string, tb: seq<Token>, next: Option<char>)
    requires Reads(a, ta, Some(',')) && Reads(b, tb, next)
    ensures Reads(a + ", " + b, ta + [Punctuation(",")] + tb, next)
  {
    LexComma(First(b, next));
    Compose(a, ta, ", ", [Punctuation(",")], First(b, next));
    Compose(a + ", ", ta + [Punctuation(",")], b, tb, next);
  }

  lemma CommaParts(a: string, b: string)
    requires IsPart(a) && IsPart(b)
    ensures IsPart(a + ", " + b)
  {
    var ta :| IsPartReading(a, ta);
    var tb :| IsPartReading(b, tb);
    LexCommaPair(a, ta, b, tb, Some(' '));
    LexCommaPair(a, ta, b, tb, Some(','));
    LexCommaPair(a, ta, b, tb, Some(')'));
    UnnestedMark(',');
    BalancedPlain([Punctuation(",")]);
    QuietConcat(ta, [Punctuation(",")], 0);
    QuietConcat(ta + [Punctuation(",")], tb, 0);
    assert IsPartReading(a + ", " + b, ta + [Punctuation(",")] + tb);
  }

  lemma UnnestedMark(c: char)
    requires c != '(' && c != ')'
    ensures Unnested(Punctuation([c]))
  {
    assert "("[0] != c && ")"[0] != c;
  }

  /** A function name directly before its parenthesized arguments. */
  lemma CallPart(w: string, arguments: string)
    requires PlainWord(w) && Upper(w) != "CHECK" && IsPart(arguments) && arguments != [] && arguments[0] == '('
    ensures IsPart(w + arguments)
  {
    var ts :| IsPartReading(arguments, ts);
    LexName(w, Some('('));
    Compose(w, [Keyword(w)], arguments, ts, Some(' '));
    Compose(w, [Keyword(w)], arguments, ts, Some(','));
    Compose(w, [Keyword(w)], arguments, ts, Some(')'));
    BalancedPlain([Keyword(w)]);
    QuietConcat([Keyword(w)], ts, 0);
    assert IsPartReading(w + arguments, [Keyword(w)] + ts);
  }

  lemma LexBars(next: Option<char>)
    ensures Reads("||", [Punctuation("|"), Punctuation("|")], next)
  {
    LexBar(Some('|'));
    LexBar(next);
    Compose("|", [Punctuation("|")], "|", [Punctuation("|")], next);
    assert "|" + "|" == "||" && [Punctuation("|")] + [Punctuation("|")] == [Punctuation("|"), Punctuation("|")];
  }

  lemma BarsPart()
    ensures IsPart("||")
  {
    var ts := [Punctuation("|"), Punctuation("|")];
    LexBars(Some(' '));
    LexBars(Some(','));
    LexBars(Some(')'));
    UnnestedMark('|');
    BalancedPlain(ts);
    assert IsPartReading("||", ts);
  }

  lemma ClockText(format: string, suffix: string)
    ensures "strftime" + ("(" + ("'" + format + "'" + ", " + ("'" + "now" + "'")) + ")") + " " + "||" + " "
            + ("'" + suffix + "'") == ClockSql(format, suffix)
  {
    assert "strftime" + ("(" + ("'" + format + "'" + ", " + ("'" + "now" + "'")) + ")")
        == "strftime('" + format + "', 'now')";
  }

  lemma ClockPart(format: string, suffix: string)
    requires forall i :: 0 <= i < |format| ==> format[i] != '\''
    requires forall i :: 0 <= i < |suffix| ==> suffix[i] != '\''
    ensures IsPart(ClockSql(format, suffix))
  {
    var first, now, last := "'" + format + "'", "'" + "now" + "'", "'" + suffix + "'";
    LiteralTextPart(format);
    LiteralTextPart("now");
    LiteralTextPart(suffix);
    CommaParts(first, now);
    ParenPart(first + ", " + now);
    var call := "strftime" + ("(" + (first + ", " + now) + ")");
    UpperLength("strftime", "CHECK");
    CallPart("strftime", "(" + (first + ", " + now) + ")");
    BarsPart();
    TwoParts(call, "||");
    TwoParts(call + " " + "||", last);
    ClockText(format, suffix);
  }

  lemma DefaultReads(default: ServerDefault)
    ensures AllParts(DefaultParts(default))
  {
    match default
    case NoServerDefault =>
    case CurrentTimestamp =>
      ClockPart("%Y-%m-%dT%H:%M:%f", "000Z");
      ParenPart(TIMESTAMP_SQL);
      UpperLength("DEFAULT", "CHECK");
      WordPart("DEFAULT");
      TwoParts("DEFAULT", "(" + TIMESTAMP_SQL + ")");
      assert "DEFAULT" + " " + ("(" + TIMESTAMP_SQL + ")") == "DEFAULT (" + TIMESTAMP_SQL + ")";
    case LiteralDefault(value) =>
      LiteralPart(value);
  }

  /** Every column definition the dialect compiles is balanced and declares no CHECK of its own, whatever
      the column's name and literal default contain. */
  lemma ColumnReads(c: PlannedColumn)
    ensures IsPart(ColumnSql(c))
  {
    NamePart(c.name);
    StoragePart(c.storage);
    KeywordParts();
    if c.collation.Some? && !c.collation.value.Binary? {
      CollationPart(c.collation.value);
    }
    DefaultReads(c.default);
    SpacedReads(ColumnParts(c));
  }
}
