/** A freshly scaffolded SQLite table, compared with what the catalog reader makes of its own DDL. */
module SchemaScaffold {
  import opened TextCodec
  import opened CheckTree
  import opened CheckLexer
  import opened CheckRender
  import opened CheckParseBack
  import opened CheckCatalog
  import opened CheckTotal
  import CheckNormalize
  import CheckMeaning
  import CheckSound
  import opened SchemaSql
  import opened SchemaColumns
  import opened SchemaTables
  import opened SchemaIndexes
  import Diff = SchemaDiff

  // ----- the verifier's rules -----

  predicate SameNormal(a: CheckExpression, b: CheckExpression) {
    NormalizeCheck(a).Some? && NormalizeCheck(a) == NormalizeCheck(b)
  }

  function AsCatalogDefault(default: Diff.Default): CatalogDefault {
    match default
    case NoDefault => NoDefault
    case SqlDefault(sql) => SqlDefault(sql)
    case LiteralDefault(_) => Unavailable
  }

  function SqliteRules(u: Alphabet): Diff.Rules {
    Diff.Rules((value, actual, nullable) => CompareDefault(u, Sqlite, value, AsCatalogDefault(actual), nullable),
               (a, b) => SameNormal(a, b))
  }

  lemma {:induction false} ProperSame(a: CheckExpression, b: CheckExpression)
    requires NotsHaveOperand(a) && NotsHaveOperand(b)
    ensures SameNormal(a, b) <==> CheckMeaning.Matched(a, b)
  {
    NormalizeCheckAgrees(a);
    NormalizeCheckAgrees(b);
  }

  lemma {:induction false} BoundSame(e: CheckExpression)
    requires IsBound(e)
    ensures SameNormal(e, e)
  {
    CheckSound.BoundStays(e);
    NormalizeCheckAgrees(e);
  }

  // ----- what the model expects and what the catalog reports -----

  /** The planned table with its foreign keys as shapes and its indexes. */
  datatype Scaffold = Scaffold(table: PlannedTable, keys: seq<Diff.ForeignKeyShape>, indexes: seq<Index>)

  function ExpectedDefault(default: ServerDefault): Diff.Default {
    match default
    case NoServerDefault => Diff.NoDefault
    case CurrentTimestamp => Diff.SqlDefault("CurrentTimestamp")
    case LiteralDefault(value) => Diff.LiteralDefault(value)
  }

  /** SQLite drops the parentheses of a default expression, and the reader recognizes the clock. */
  function ReportedDefault(default: ServerDefault): Diff.Default {
    match default
    case NoServerDefault => Diff.NoDefault
    case CurrentTimestamp => Diff.SqlDefault("CurrentTimestamp")
    case LiteralDefault(value) => Diff.SqlDefault(ReportedSql(value))
  }

  function ExpectedColumn(c: PlannedColumn): Diff.ColumnShape {
    Diff.ColumnShape(
      StorageSql(c.storage), !RequiresNotNull(c), c.primaryKey, c.autoIncrement, ExpectedDefault(c.default),
      Some(if c.collation.None? then "BINARY" else CollationSql(c.collation.value)), None, None)
  }

  function ReportedColumn(c: PlannedColumn): Diff.ColumnShape {
    ExpectedColumn(c).(serverDefault := ReportedDefault(c.default))
  }

  function ExpectedColumns(cs: seq<PlannedColumn>): map<string, Diff.ColumnShape> {
    if cs == [] then map[] else ExpectedColumns(cs[..|cs| - 1])[cs[|cs| - 1].name := ExpectedColumn(cs[|cs| - 1])]
  }

  function ReportedColumns(cs: seq<PlannedColumn>): map<string, Diff.ColumnShape> {
    if cs == [] then map[] else ReportedColumns(cs[..|cs| - 1])[cs[|cs| - 1].name := ReportedColumn(cs[|cs| - 1])]
  }

  function NamesOf(cs: seq<PlannedColumn>): seq<string> {
    seq(|cs|, i requires 0 <= i < |cs| => cs[i].name)
  }

  function IndexNames(cs: seq<IndexColumn>): seq<string> {
    seq(|cs|, i requires 0 <= i < |cs| => cs[i].name)
  }

  function ExpectedIndex(index: Index): Diff.IndexShape {
    Diff.IndexShape(IndexNames(index.columns), index.unique, Some(index.filter.Some?), None, None, index.filter)
  }

  /** The predicate of a partial index is read from its CREATE INDEX. */
  function ReportedIndex(u: Alphabet, table: PlannedTable, index: Index): Diff.IndexShape
    requires index.filter.Some? ==> IsBound(index.filter.value)
  {
    ExpectedIndex(index).(filter :=
      if index.filter.None? then None else IndexPredicate(u, CreateIndexSql(table.name, index), NamesOf(table.columns)))
  }

  ghost predicate FiltersBound(indexes: seq<Index>) {
    forall i :: 0 <= i < |indexes| && indexes[i].filter.Some? ==> IsBound(indexes[i].filter.value)
  }

  function ExpectedIndexes(indexes: seq<Index>): map<string, Diff.IndexShape> {
    if indexes == [] then map[]
    else
      var n := |indexes| - 1;
      ExpectedIndexes(indexes[..n])[indexes[n].name := ExpectedIndex(indexes[n])]
  }

  function ReportedIndexes(u: Alphabet, table: PlannedTable, indexes: seq<Index>): map<string, Diff.IndexShape>
    requires FiltersBound(indexes)
  {
    if indexes == [] then map[]
    else
      var n := |indexes| - 1;
      ReportedIndexes(u, table, indexes[..n])[indexes[n].name := ReportedIndex(u, table, indexes[n])]
  }

  function Expected(s: Scaffold): Diff.TableShape {
    Diff.TableShape(ExpectedColumns(s.table.columns), ExpectedIndexes(s.indexes), s.keys, ["STRICT"],
                    Some(DeclaredChecks(s.table.checks)))
  }

  /** The catalog has names of its own for the foreign keys. */
  function ReadBack(u: Alphabet, s: Scaffold, rename: string -> string): Diff.TableShape
    requires AllBound(s.table.checks) && FiltersBound(s.indexes)
  {
    Diff.TableShape(ReportedColumns(s.table.columns), ReportedIndexes(u, s.table, s.indexes),
                    Diff.Renamed(s.keys, rename), ["STRICT"], SqliteChecks(u, CreateTableSql(s.table)))
  }

  // ----- columns -----

  lemma LiteralFresh(u: Alphabet, value: Value, nullable: bool)
    ensures SqliteRules(u).compareDefault(value, Diff.SqlDefault(ReportedSql(value)), nullable) == Matched
  {
    ReportedDefaultMatches(u, value, nullable);
    assert AsCatalogDefault(Diff.SqlDefault(ReportedSql(value))) == SqlDefault(ReportedSql(value));
  }

  lemma ColumnFresh(u: Alphabet, c: PlannedColumn)
    ensures Diff.ColumnMatches(SqliteRules(u), ExpectedColumn(c), ReportedColumn(c))
  {
    if c.default.LiteralDefault? {
      LiteralFresh(u, c.default.value, ReportedColumn(c).nullable);
    }
  }

  lemma {:induction false} ColumnsFresh(u: Alphabet, cs: seq<PlannedColumn>)
    ensures Diff.ColumnsMatch(SqliteRules(u), ExpectedColumns(cs), ReportedColumns(cs))
  {
    if cs != [] {
      var n := |cs| - 1;
      ColumnsFresh(u, cs[..n]);
      ColumnFresh(u, cs[n]);
      var e, a := ExpectedColumns(cs[..n]), ReportedColumns(cs[..n]);
      assert ExpectedColumns(cs) == e[cs[n].name := ExpectedColumn(cs[n])];
      assert ReportedColumns(cs) == a[cs[n].name := ReportedColumn(cs[n])];
    }
  }

  // ----- indexes -----

  /** A filter reads columns of its table, whose names differ beyond their case. */
  ghost predicate IndexBound(table: PlannedTable, index: Index) {
    index.filter.Some? ==>
      && IsBound(index.filter.value) && ReadsOnly(NamesOf(table.columns), index.filter.value)
      && DistinctIgnoringCase(NamesOf(table.columns))
  }

  ghost predicate IndexesBound(table: PlannedTable, indexes: seq<Index>) {
    forall i :: 0 <= i < |indexes| ==> IndexBound(table, indexes[i])
  }

  lemma IndexFresh(u: Alphabet, table: PlannedTable, index: Index)
    requires IndexBound(table, index)
    ensures ReportedIndex(u, table, index) == ExpectedIndex(index)
    ensures Diff.IndexMatches(SqliteRules(u), ExpectedIndex(index), ExpectedIndex(index))
  {
    if index.filter.Some? {
      IndexPredicateRoundTrip(u, table.name, index, NamesOf(table.columns));
      BoundSame(index.filter.value);
    }
  }

  lemma {:induction false} IndexesFresh(u: Alphabet, table: PlannedTable, indexes: seq<Index>)
    requires IndexesBound(table, indexes)
    ensures FiltersBound(indexes) && ReportedIndexes(u, table, indexes) == ExpectedIndexes(indexes)
    ensures Diff.IndexesMatch(SqliteRules(u), ExpectedIndexes(indexes), ExpectedIndexes(indexes))
  {
    if indexes != [] {
      var n := |indexes| - 1;
      IndexesFresh(u, table, indexes[..n]);
      assert IndexBound(table, indexes[n]);
      IndexFresh(u, table, indexes[n]);
      assert ExpectedIndexes(indexes) == ExpectedIndexes(indexes[..n])[indexes[n].name := ExpectedIndex(indexes[n])];
    }
  }

  // ----- CHECKs -----

  lemma {:induction false} NamedHolds(checks: seq<CheckShape>, i: nat)
    requires i < |checks|
    ensures checks[i] in Diff.Named(checks, checks[i].name)
  {
    var n := |checks| - 1;
    if i < n {
      NamedHolds(checks[..n], i);
    }
  }

  lemma CheckFresh(u: Alphabet, checks: seq<NamedCheck>, i: nat)
    requires AllBound(checks) && i < |checks|
    ensures Diff.CheckMatches(SqliteRules(u), DeclaredChecks(checks)[i], Some(DeclaredChecks(checks)))
  {
    NamedHolds(DeclaredChecks(checks), i);
    BoundSame(checks[i].expression);
  }

  lemma ChecksFresh(u: Alphabet, checks: seq<NamedCheck>)
    requires AllBound(checks)
    ensures Diff.ChecksMatch(SqliteRules(u), Some(DeclaredChecks(checks)), Some(DeclaredChecks(checks)))
  {
    forall i | 0 <= i < |checks|
      ensures Diff.CheckMatches(SqliteRules(u), DeclaredChecks(checks)[i], Some(DeclaredChecks(checks)))
    {
      CheckFresh(u, checks, i);
    }
  }

  // ----- the whole table -----

  /** What was scaffolded is never reported as drift: its columns with their literal defaults, its
      partial-index predicates, its foreign keys under any names and its CHECKs all match. */
  lemma FreshScaffoldMatches(u: Alphabet, s: Scaffold, rename: string -> string)
    requires AllBound(s.table.checks) && IndexesBound(s.table, s.indexes)
    requires Diff.Injective(rename, Diff.Constraints(s.keys))
    ensures FiltersBound(s.indexes)
    ensures Diff.ShapesMatch(SqliteRules(u), Expected(s), ReadBack(u, s, rename))
  {
    ColumnsFresh(u, s.table.columns);
    IndexesFresh(u, s.table, s.indexes);
    TableChecksRoundTrip(u, s.table);
    ChecksFresh(u, s.table.checks);
    Diff.GroupsForgetNames(s.keys, rename);
  }

  /** Evidence that a declared CHECK matched means that the catalog has one CHECK of that name and that
      it accepts, rejects and leaves undecided the same rows, whatever the collation, unless an operand
      of the catalog's CHECK collapses. */
  lemma {:induction false} MatchedFactMeansEqual(u: Alphabet, m: CheckMeaning.Setting, name: string, declared: CheckExpression,
                              sql: string, read: seq<CheckShape>)
    requires IsBound(declared) && SqliteChecks(u, sql) == Some(read)
    requires
      var fact := Diff.Fact("check.expression", Some(name), Matched);
      fact in Diff.CheckFacts(SqliteRules(u), CheckShape(Some(name), Some(declared)), Some(read))
    requires forall i :: 0 <= i < |read| && read[i].expression.Some? ==>
      CheckMeaning.OperandsStay(read[i].expression.value)
    ensures
      var found := Diff.Named(read, Some(name));
      && |found| == 1 && found[0] in read && found[0].expression.Some?
      && CheckMeaning.TruthOf(m, found[0].expression.value) == CheckMeaning.TruthOf(m, declared)
  {
    var found := Diff.Named(read, Some(name));
    MatchedFact(u, name, declared, read);
    CheckSound.ReadChecksAreProper(u, sql);
    NamedWithin(read, Some(name));
    assert found[0] in read;
    var i :| 0 <= i < |read| && read[i] == found[0];
    SameMeaning(m, declared, read[i].expression.value);
  }

  lemma {:induction false} MatchedFact(u: Alphabet, name: string, declared: CheckExpression, read: seq<CheckShape>)
    requires
      var fact := Diff.Fact("check.expression", Some(name), Matched);
      fact in Diff.CheckFacts(SqliteRules(u), CheckShape(Some(name), Some(declared)), Some(read))
    ensures
      var found := Diff.Named(read, Some(name));
      |found| == 1 && found[0].expression.Some? && SameNormal(found[0].expression.value, declared)
  {
    assert "check.presence"[6] != "check.expression"[6];
  }

  lemma {:induction false} SameMeaning(m: CheckMeaning.Setting, declared: CheckExpression, actual: CheckExpression)
    requires IsBound(declared) && NotsHaveOperand(actual) && CheckMeaning.OperandsStay(actual)
    requires SameNormal(actual, declared)
    ensures CheckMeaning.TruthOf(m, actual) == CheckMeaning.TruthOf(m, declared)
  {
    CheckSound.BoundStays(declared);
    ProperSame(actual, declared);
    CheckMeaning.MatchedMeansEqual(m, actual, declared);
  }

  lemma {:induction false} NamedWithin(checks: seq<CheckShape>, name: Option<string>)
    ensures forall c :: c in Diff.Named(checks, name) ==> c in checks
  {
    if checks != [] {
      NamedWithin(checks[..|checks| - 1], name);
    }
  }
}
