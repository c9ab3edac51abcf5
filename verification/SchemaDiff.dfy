/** Comparing the table a model expects with the one the catalog describes: the drift report and the
    evidence behind it. */
module SchemaDiff {
  import opened TextCodec
  import opened CheckTree

  // ----- shapes -----

  datatype Default = NoDefault | SqlDefault(sql: string) | LiteralDefault(value: Value)

  datatype ColumnShape = ColumnShape(
    storageType: string, nullable: bool, primaryKey: bool, autoIncrement: bool, serverDefault: Default,
    collation: Option<string>, datetimePrecision: Option<int>, unsigned: Option<bool>)

  datatype IndexShape = IndexShape(
    columnNames: seq<string>, unique: bool, partial: Option<bool>, prefixLengths: Option<seq<Option<int>>>,
    indexType: Option<string>, filter: Option<CheckExpression>)

  /** One column pair of a foreign key, without its catalog identity. */
  datatype Pair = Pair(column: string, table: string, target: string, onDelete: string, onUpdate: string)

  datatype ForeignKeyShape = ForeignKeyShape(pair: Pair, constraint: Option<string>, position: int)

  datatype TableShape = TableShape(
    columns: map<string, ColumnShape>, indexes: map<string, IndexShape>, foreignKeys: seq<ForeignKeyShape>,
    storageOptions: seq<string>, checks: Option<seq<CheckShape>>)

  datatype Fact = Fact(kind: string, name: Option<string>, status: Status)

  datatype Issue = Issue(kind: string, name: Option<string>)

  /** How literal defaults and normalized expressions compare. */
  datatype Rules = Rules(
    compareDefault: (Value, Default, bool) -> Status, sameExpression: (CheckExpression, CheckExpression) -> bool)

  // ----- what it means to match -----

  predicate DefaultDrifts(r: Rules, e: ColumnShape, a: ColumnShape) {
    if e.serverDefault.LiteralDefault? then r.compareDefault(e.serverDefault.value, a.serverDefault, a.nullable).Drift?
    else e.serverDefault != a.serverDefault
  }

  predicate ColumnMatches(r: Rules, e: ColumnShape, a: ColumnShape) {
    && e.storageType == a.storageType && e.nullable == a.nullable && e.primaryKey == a.primaryKey
    && e.autoIncrement == a.autoIncrement && !DefaultDrifts(r, e, a)
    && e.collation == a.collation && e.datetimePrecision == a.datetimePrecision && e.unsigned == a.unsigned
  }

  predicate ColumnsMatch(r: Rules, e: map<string, ColumnShape>, a: map<string, ColumnShape>) {
    e.Keys == a.Keys && forall name :: name in e && name in a ==> ColumnMatches(r, e[name], a[name])
  }

  /** The catalog does not say enough to compare the predicate. */
  predicate FilterUnknown(a: IndexShape) {
    a.partial.None? || (a.partial.value && a.filter.None?)
  }

  predicate IndexMatches(r: Rules, e: IndexShape, a: IndexShape) {
    && e.columnNames == a.columnNames && e.unique == a.unique && e.partial == a.partial
    && e.prefixLengths == a.prefixLengths && e.indexType == a.indexType
    && (e.filter.Some? && !FilterUnknown(a) ==> a.filter.Some? && r.sameExpression(e.filter.value, a.filter.value))
  }

  predicate IndexesMatch(r: Rules, e: map<string, IndexShape>, a: map<string, IndexShape>) {
    e.Keys == a.Keys && forall name :: name in e && name in a ==> IndexMatches(r, e[name], a[name])
  }

  function Named(checks: seq<CheckShape>, name: Option<string>): seq<CheckShape> {
    if checks == [] then []
    else Named(checks[..|checks| - 1], name)
         + if checks[|checks| - 1].name == name then [checks[|checks| - 1]] else []
  }

  predicate CheckMatches(r: Rules, e: CheckShape, a: Option<seq<CheckShape>>) {
    a.Some? ==>
      var found := Named(a.value, e.name);
      && found != []
      && (|found| == 1 && found[0].expression.Some? ==>
            e.expression.Some? && r.sameExpression(found[0].expression.value, e.expression.value))
  }

  predicate ChecksMatch(r: Rules, e: Option<seq<CheckShape>>, a: Option<seq<CheckShape>>) {
    e.Some? ==> forall i :: 0 <= i < |e.value| ==> CheckMatches(r, e.value[i], a)
  }

  /** The evidence on one declared CHECK: its presence, then its expression when there is one to read. */
  function CheckFacts(r: Rules, e: CheckShape, a: Option<seq<CheckShape>>): seq<Fact> {
    if a.None? then [Fact("check.presence", e.name, Unchecked)]
    else
      var found := Named(a.value, e.name);
      if found == [] then [Fact("check.presence", e.name, Drift)]
      else [Fact("check.presence", e.name, Matched), Fact("check.expression", e.name, ExpressionStatus(r, e, found))]
  }

  function ExpressionStatus(r: Rules, e: CheckShape, found: seq<CheckShape>): Status {
    if |found| != 1 || found[0].expression.None? then Unchecked
    else if e.expression.Some? && r.sameExpression(found[0].expression.value, e.expression.value) then Matched
    else Drift
  }

  // ----- foreign-key groups -----

  /** Insertion by position; rows of one constraint end up in pair order. */
  function InsertByPosition(group: seq<ForeignKeyShape>, fk: ForeignKeyShape): seq<ForeignKeyShape> {
    if group == [] then [fk]
    else if fk.position < group[|group| - 1].position then
      InsertByPosition(group[..|group| - 1], fk) + [group[|group| - 1]]
    else group + [fk]
  }

  /** The rows of a constraint, ordered by position. */
  function Members(fks: seq<ForeignKeyShape>, id: string): seq<ForeignKeyShape> {
    if fks == [] then []
    else
      var before, last := Members(fks[..|fks| - 1], id), fks[|fks| - 1];
      if last.constraint == Some(id) then InsertByPosition(before, last) else before
  }

  function Pairs(group: seq<ForeignKeyShape>): seq<Pair> {
    seq(|group|, i requires 0 <= i < |group| => group[i].pair)
  }

  /** The constraint identities, in order of first appearance. */
  function Constraints(fks: seq<ForeignKeyShape>): seq<string> {
    if fks == [] then []
    else
      var before, last := Constraints(fks[..|fks| - 1]), fks[|fks| - 1];
      if last.constraint.Some? && last.constraint.value !in before then before + [last.constraint.value] else before
  }

  function NamedGroups(fks: seq<ForeignKeyShape>, ids: seq<string>): multiset<seq<Pair>> {
    if ids == [] then multiset{}
    else NamedGroups(fks, ids[..|ids| - 1]) + multiset{Pairs(Members(fks, ids[|ids| - 1]))}
  }

  /** Rows without a constraint identity stand alone. */
  function LoneGroups(fks: seq<ForeignKeyShape>): multiset<seq<Pair>> {
    if fks == [] then multiset{}
    else
      var last := fks[|fks| - 1];
      LoneGroups(fks[..|fks| - 1]) + if last.constraint.None? then multiset{[last.pair]} else multiset{}
  }

  /** The ordered constraint groups, as a multiset: catalog identities and row order forgotten. */
  function Groups(fks: seq<ForeignKeyShape>): multiset<seq<Pair>> {
    NamedGroups(fks, Constraints(fks)) + LoneGroups(fks)
  }

  /** The pairs of one column. */
  function ColumnPairs(fks: seq<ForeignKeyShape>, column: string): seq<Pair> {
    if fks == [] then []
    else ColumnPairs(fks[..|fks| - 1], column)
         + if fks[|fks| - 1].pair.column == column then [fks[|fks| - 1].pair] else []
  }

  // ----- equal groups have equal pairs -----

  function AllPairs(fks: seq<ForeignKeyShape>): multiset<Pair> {
    multiset(Pairs(fks))
  }

  lemma AllPairsLast(fks: seq<ForeignKeyShape>)
    requires fks != []
    ensures AllPairs(fks) == AllPairs(fks[..|fks| - 1]) + multiset{fks[|fks| - 1].pair}
  {
    assert Pairs(fks) == Pairs(fks[..|fks| - 1]) + [fks[|fks| - 1].pair];
  }

  lemma AllPairsConcat(a: seq<ForeignKeyShape>, b: seq<ForeignKeyShape>)
    ensures AllPairs(a + b) == AllPairs(a) + AllPairs(b)
  {
    assert Pairs(a + b) == Pairs(a) + Pairs(b);
  }

  lemma {:induction false} InsertKeeps(group: seq<ForeignKeyShape>, fk: ForeignKeyShape)
    ensures multiset(InsertByPosition(group, fk)) == multiset(group) + multiset{fk}
    ensures AllPairs(InsertByPosition(group, fk)) == AllPairs(group) + multiset{fk.pair}
  {
    AllPairsLast([fk]);
    if group != [] {
      var before, last := group[..|group| - 1], group[|group| - 1];
      assert before + [last] == group;
      if fk.position < last.position {
        InsertKeeps(before, fk);
        AllPairsConcat(InsertByPosition(before, fk), [last]);
        AllPairsConcat(before, [last]);
      } else {
        AllPairsConcat(group, [fk]);
      }
    } else {
      assert Pairs(group) == [];
    }
  }

  ghost function Picked(groups: multiset<seq<Pair>>): (g: seq<Pair>)
    requires |groups| > 0
    ensures g in groups
  {
    var g :| g in groups; g
  }

  /** How often a pair occurs in all the groups together. */
  ghost function Spread(groups: multiset<seq<Pair>>, p: Pair): nat
    decreases |groups|
  {
    if |groups| == 0 then 0
    else multiset(Picked(groups))[p] + Spread(groups - multiset{Picked(groups)}, p)
  }

  lemma Exchange(groups: multiset<seq<Pair>>, g: seq<Pair>, h: seq<Pair>)
    requires h in groups + multiset{g} && h != g
    ensures groups + multiset{g} - multiset{h} == groups - multiset{h} + multiset{g}
    ensures groups - multiset{h} + multiset{h} == groups && |groups - multiset{h}| < |groups|
  {
  }

  lemma {:induction false} SpreadAdd(groups: multiset<seq<Pair>>, g: seq<Pair>, p: Pair)
    ensures Spread(groups + multiset{g}, p) == Spread(groups, p) + multiset(g)[p]
    decreases |groups|
  {
    var h := Picked(groups + multiset{g});
    if h == g {
      assert groups + multiset{g} - multiset{g} == groups;
    } else {
      Exchange(groups, g, h);
      SpreadAdd(groups - multiset{h}, g, p);
      SpreadAdd(groups - multiset{h}, h, p);
    }
  }

  lemma {:induction false} SpreadSum(a: multiset<seq<Pair>>, b: multiset<seq<Pair>>, p: Pair)
    ensures Spread(a + b, p) == Spread(a, p) + Spread(b, p)
    decreases |b|
  {
    if |b| == 0 {
      assert a + b == a;
    } else {
      var g :| g in b;
      var fewer := b - multiset{g};
      assert fewer + multiset{g} == b && (a + fewer) + multiset{g} == a + b;
      SpreadSum(a, fewer, p);
      SpreadAdd(a + fewer, g, p);
      SpreadAdd(fewer, g, p);
    }
  }

  predicate NoDuplicates(ids: seq<string>) {
    forall i, j :: 0 <= i < j < |ids| ==> ids[i] != ids[j]
  }

  lemma {:induction false} ConstraintsListed(fks: seq<ForeignKeyShape>)
    ensures NoDuplicates(Constraints(fks))
    ensures forall id :: id in Constraints(fks) <==> exists i :: 0 <= i < |fks| && fks[i].constraint == Some(id)
  {
    if fks != [] {
      var n := |fks| - 1;
      ConstraintsListed(fks[..n]);
      forall id ensures id in Constraints(fks) <==> exists i :: 0 <= i < |fks| && fks[i].constraint == Some(id) {
        if i :| 0 <= i < |fks| && fks[i].constraint == Some(id) {
          assert i < n ==> fks[..n][i].constraint == Some(id);
        }
        if id in Constraints(fks[..n]) {
          var k :| 0 <= k < n && fks[..n][k].constraint == Some(id);
          assert fks[k].constraint == Some(id);
        }
      }
    }
  }

  /** How often a pair occurs in the named constraints. */
  function InConstraints(fks: seq<ForeignKeyShape>, ids: seq<string>, p: Pair): nat {
    if ids == [] then 0
    else InConstraints(fks, ids[..|ids| - 1], p) + AllPairs(Members(fks, ids[|ids| - 1]))[p]
  }

  lemma {:induction false} SpreadNamed(fks: seq<ForeignKeyShape>, ids: seq<string>, p: Pair)
    ensures Spread(NamedGroups(fks, ids), p) == InConstraints(fks, ids, p)
  {
    if ids != [] {
      SpreadNamed(fks, ids[..|ids| - 1], p);
      SpreadAdd(NamedGroups(fks, ids[..|ids| - 1]), Pairs(Members(fks, ids[|ids| - 1])), p);
    }
  }

  lemma {:induction false} MembersNext(fks: seq<ForeignKeyShape>, id: string, p: Pair)
    requires fks != []
    ensures
      var last := fks[|fks| - 1];
      AllPairs(Members(fks, id))[p]
      == AllPairs(Members(fks[..|fks| - 1], id))[p] + if last.constraint == Some(id) && last.pair == p then 1 else 0
  {
    InsertKeeps(Members(fks[..|fks| - 1], id), fks[|fks| - 1]);
  }

  lemma {:induction false} ConstraintsNext(fks: seq<ForeignKeyShape>, ids: seq<string>, p: Pair)
    requires fks != [] && NoDuplicates(ids)
    ensures
      var last := fks[|fks| - 1];
      InConstraints(fks, ids, p)
      == InConstraints(fks[..|fks| - 1], ids, p)
         + if last.constraint.Some? && last.constraint.value in ids && last.pair == p then 1 else 0
    decreases |ids|
  {
    if ids != [] {
      var n := |ids| - 1;
      ConstraintsNext(fks, ids[..n], p);
      MembersNext(fks, ids[n], p);
      assert ids == ids[..n] + [ids[n]];
      assert ids[n] !in ids[..n];
    }
  }

  lemma {:induction false} NoMembers(fks: seq<ForeignKeyShape>, id: string)
    requires forall i :: 0 <= i < |fks| ==> fks[i].constraint != Some(id)
    ensures Members(fks, id) == []
  {
    if fks != [] {
      NoMembers(fks[..|fks| - 1], id);
    }
  }

  /** Grouping neither loses nor invents a pair. */
  lemma {:induction false} GroupsHoldPairs(fks: seq<ForeignKeyShape>, p: Pair)
    ensures Spread(Groups(fks), p) == AllPairs(fks)[p]
  {
    SpreadSum(NamedGroups(fks, Constraints(fks)), LoneGroups(fks), p);
    SpreadNamed(fks, Constraints(fks), p);
    PairsCounted(fks, p);
  }

  lemma {:induction false} PairsCounted(fks: seq<ForeignKeyShape>, p: Pair)
    ensures InConstraints(fks, Constraints(fks), p) + Spread(LoneGroups(fks), p) == AllPairs(fks)[p]
  {
    if fks == [] {
      assert Pairs(fks) == [];
    } else {
      PairsCounted(fks[..|fks| - 1], p);
      AllPairsLast(fks);
      if fks[|fks| - 1].constraint.None? {
        LoneRow(fks, p);
      } else {
        NamedRow(fks, p);
      }
    }
  }

  lemma LoneRow(fks: seq<ForeignKeyShape>, p: Pair)
    requires fks != [] && fks[|fks| - 1].constraint.None?
    ensures
      var before, last := fks[..|fks| - 1], fks[|fks| - 1];
      && InConstraints(fks, Constraints(fks), p) == InConstraints(before, Constraints(before), p)
      && Spread(LoneGroups(fks), p) == Spread(LoneGroups(before), p) + if last.pair == p then 1 else 0
  {
    var before, last := fks[..|fks| - 1], fks[|fks| - 1];
    ConstraintsListed(before);
    ConstraintsNext(fks, Constraints(before), p);
    SpreadAdd(LoneGroups(before), [last.pair], p);
  }

  lemma NamedRow(fks: seq<ForeignKeyShape>, p: Pair)
    requires fks != [] && fks[|fks| - 1].constraint.Some?
    ensures
      var before, last := fks[..|fks| - 1], fks[|fks| - 1];
      && InConstraints(fks, Constraints(fks), p)
         == InConstraints(before, Constraints(before), p) + (if last.pair == p then 1 else 0)
      && LoneGroups(fks) == LoneGroups(before)
  {
    var n := |fks| - 1;
    var before, id := fks[..n], fks[n].constraint.value;
    ConstraintsListed(fks);
    ConstraintsNext(fks, Constraints(fks), p);
    if id !in Constraints(before) {
      NewConstraint(before, id, p);
    }
  }

  lemma {:induction false} NewConstraint(fks: seq<ForeignKeyShape>, id: string, p: Pair)
    requires id !in Constraints(fks)
    ensures InConstraints(fks, Constraints(fks) + [id], p) == InConstraints(fks, Constraints(fks), p)
  {
    ConstraintsListed(fks);
    NoMembers(fks, id);
    assert Pairs(Members(fks, id)) == [];
    assert (Constraints(fks) + [id])[..|Constraints(fks)|] == Constraints(fks);
  }

  /** Equal groups mean equal pairs. */
  lemma GroupsDecidePairs(a: seq<ForeignKeyShape>, b: seq<ForeignKeyShape>)
    requires Groups(a) == Groups(b)
    ensures AllPairs(a) == AllPairs(b)
  {
    forall p ensures AllPairs(a)[p] == AllPairs(b)[p] {
      GroupsHoldPairs(a, p);
      GroupsHoldPairs(b, p);
    }
  }

  lemma {:induction false} ColumnPairsCount(fks: seq<ForeignKeyShape>, column: string, p: Pair)
    ensures multiset(ColumnPairs(fks, column))[p] == if p.column == column then AllPairs(fks)[p] else 0
  {
    if fks == [] {
      assert Pairs(fks) == [];
    } else {
      ColumnPairsCount(fks[..|fks| - 1], column, p);
      AllPairsLast(fks);
    }
  }

  lemma {:induction false} PairsDecideColumns(a: seq<ForeignKeyShape>, b: seq<ForeignKeyShape>, column: string)
    requires AllPairs(a) == AllPairs(b)
    ensures multiset(ColumnPairs(a, column)) == multiset(ColumnPairs(b, column))
  {
    forall p ensures multiset(ColumnPairs(a, column))[p] == multiset(ColumnPairs(b, column))[p] {
      ColumnPairsCount(a, column, p);
      ColumnPairsCount(b, column, p);
    }
  }

  // ----- groups forget identities and row order -----

  function Renamed(fks: seq<ForeignKeyShape>, rename: string -> string): seq<ForeignKeyShape> {
    seq(|fks|, i requires 0 <= i < |fks| =>
      if fks[i].constraint.None? then fks[i] else fks[i].(constraint := Some(rename(fks[i].constraint.value))))
  }

  predicate Injective(rename: string -> string, ids: seq<string>) {
    forall x, y :: x in ids && y in ids && rename(x) == rename(y) ==> x == y
  }

  function Mapped(ids: seq<string>, rename: string -> string): seq<string> {
    seq(|ids|, i requires 0 <= i < |ids| => rename(ids[i]))
  }

  lemma {:induction false} InsertRenamed(group: seq<ForeignKeyShape>, fk: ForeignKeyShape, rename: string -> string)
    ensures InsertByPosition(Renamed(group, rename), Renamed([fk], rename)[0])
            == Renamed(InsertByPosition(group, fk), rename)
  {
    if group != [] {
      var n := |group| - 1;
      assert Renamed(group, rename)[..n] == Renamed(group[..n], rename);
      InsertRenamed(group[..n], fk, rename);
    }
  }

  lemma {:induction false} MembersRenamed(fks: seq<ForeignKeyShape>, rename: string -> string, ids: seq<string>, id: string)
    requires Injective(rename, ids) && id in ids
    requires forall i :: 0 <= i < |fks| && fks[i].constraint.Some? ==> fks[i].constraint.value in ids
    ensures Members(Renamed(fks, rename), rename(id)) == Renamed(Members(fks, id), rename)
  {
    if fks != [] {
      var n := |fks| - 1;
      assert Renamed(fks, rename)[..n] == Renamed(fks[..n], rename);
      MembersRenamed(fks[..n], rename, ids, id);
      InsertRenamed(Members(fks[..n], id), fks[n], rename);
    }
  }

  lemma MappedHolds(some: seq<string>, rename: string -> string, ids: seq<string>, id: string)
    requires Injective(rename, ids) && id in ids && forall x :: x in some ==> x in ids
    ensures rename(id) in Mapped(some, rename) <==> id in some
  {
    forall k | 0 <= k < |some| ensures Mapped(some, rename)[k] == rename(id) <==> some[k] == id {
      assert some[k] in some;
    }
  }

  lemma {:induction false} ConstraintsRenamed(fks: seq<ForeignKeyShape>, rename: string -> string, ids: seq<string>)
    requires Injective(rename, ids)
    requires forall i :: 0 <= i < |fks| && fks[i].constraint.Some? ==> fks[i].constraint.value in ids
    ensures Constraints(Renamed(fks, rename)) == Mapped(Constraints(fks), rename)
  {
    if fks != [] {
      var n := |fks| - 1;
      assert Renamed(fks, rename)[..n] == Renamed(fks[..n], rename);
      ConstraintsRenamed(fks[..n], rename, ids);
      ConstraintsListed(fks[..n]);
      if fks[n].constraint.Some? {
        MappedHolds(Constraints(fks[..n]), rename, ids, fks[n].constraint.value);
      }
    }
  }

  lemma {:induction false} NamedRenamed(fks: seq<ForeignKeyShape>, rename: string -> string, ids: seq<string>, some: seq<string>)
    requires Injective(rename, ids) && forall id :: id in some ==> id in ids
    requires forall i :: 0 <= i < |fks| && fks[i].constraint.Some? ==> fks[i].constraint.value in ids
    ensures NamedGroups(Renamed(fks, rename), Mapped(some, rename)) == NamedGroups(fks, some)
  {
    if some != [] {
      var n := |some| - 1;
      assert Mapped(some, rename)[..n] == Mapped(some[..n], rename);
      NamedRenamed(fks, rename, ids, some[..n]);
      MembersRenamed(fks, rename, ids, some[n]);
      assert Pairs(Renamed(Members(fks, some[n]), rename)) == Pairs(Members(fks, some[n]));
    }
  }

  lemma {:induction false} LoneRenamed(fks: seq<ForeignKeyShape>, rename: string -> string)
    ensures LoneGroups(Renamed(fks, rename)) == LoneGroups(fks)
  {
    if fks != [] {
      var n := |fks| - 1;
      assert Renamed(fks, rename)[..n] == Renamed(fks[..n], rename);
      LoneRenamed(fks[..n], rename);
    }
  }

  /** Constraint names do not matter. */
  lemma {:induction false} GroupsForgetNames(fks: seq<ForeignKeyShape>, rename: string -> string)
    requires Injective(rename, Constraints(fks))
    ensures Groups(Renamed(fks, rename)) == Groups(fks)
  {
    var ids := Constraints(fks);
    ConstraintsListed(fks);
    forall i | 0 <= i < |fks| && fks[i].constraint.Some? ensures fks[i].constraint.value in ids {
    }
    ConstraintsRenamed(fks, rename, ids);
    NamedRenamed(fks, rename, ids, ids);
    LoneRenamed(fks, rename);
  }

  /** No two rows of one constraint claim the same position. */
  predicate PositionsDistinct(fks: seq<ForeignKeyShape>) {
    forall i, j :: 0 <= i < j < |fks| && fks[i].constraint.Some? && fks[i].constraint == fks[j].constraint ==>
      fks[i].position != fks[j].position
  }

  predicate Sorted(group: seq<ForeignKeyShape>) {
    forall i, j :: 0 <= i < j < |group| ==> group[i].position < group[j].position
  }

  lemma AppendSorted(group: seq<ForeignKeyShape>, last: ForeignKeyShape)
    requires Sorted(group) && forall x :: x in group ==> x.position < last.position
    ensures Sorted(group + [last])
    ensures forall x :: x in group + [last] <==> x in group || x == last
  {
    var r := group + [last];
    forall i, j | 0 <= i < j < |r| ensures r[i].position < r[j].position {
      assert r[i] == group[i] && group[i] in group;
    }
  }

  lemma LastIsLargest(group: seq<ForeignKeyShape>)
    requires Sorted(group) && group != []
    ensures
      var before, last := group[..|group| - 1], group[|group| - 1];
      && Sorted(before) && last in group
      && (forall x :: x in before ==> x.position < last.position && x in group)
      && (forall x :: x in group <==> x in before || x == last)
  {
    var n := |group| - 1;
    assert group == group[..n] + [group[n]];
    forall x | x in group[..n] ensures x.position < group[n].position {
      var k :| 0 <= k < n && group[..n][k] == x;
    }
  }

  lemma {:induction false} InsertSorted(group: seq<ForeignKeyShape>, fk: ForeignKeyShape)
    requires Sorted(group) && forall x :: x in group ==> x.position != fk.position
    ensures Sorted(InsertByPosition(group, fk))
    ensures forall x :: x in InsertByPosition(group, fk) <==> x in group || x == fk
  {
    if group != [] {
      LastIsLargest(group);
      var before, last := group[..|group| - 1], group[|group| - 1];
      if fk.position < last.position {
        InsertSorted(before, fk);
        AppendSorted(InsertByPosition(before, fk), last);
      } else {
        AppendSorted(group, fk);
      }
    }
  }

  lemma {:induction false} MembersSorted(fks: seq<ForeignKeyShape>, id: string)
    requires PositionsDistinct(fks)
    ensures Sorted(Members(fks, id))
    ensures forall x :: x in Members(fks, id) <==> x in fks && x.constraint == Some(id)
  {
    if fks != [] {
      var n := |fks| - 1;
      var before, last := fks[..n], fks[n];
      MembersSorted(before, id);
      assert fks == before + [last];
      if last.constraint == Some(id) {
        forall x | x in Members(before, id) ensures x.position != last.position {
          var k :| 0 <= k < n && before[k] == x;
          assert fks[k] == x;
        }
        InsertSorted(Members(before, id), last);
      }
    }
  }

  lemma HoldsSomething<T>(s: seq<T>)
    ensures s == [] || exists x :: x in s
  {
    if s != [] {
      assert s[0] in s;
    }
  }

  /** Strictly ordered rows are determined by which rows they are. */
  lemma {:induction false} SortedUnique(a: seq<ForeignKeyShape>, b: seq<ForeignKeyShape>)
    requires Sorted(a) && Sorted(b) && forall x :: x in a <==> x in b
    ensures a == b
    decreases |a|
  {
    if a == [] {
      HoldsSomething(b);
    } else {
      assert a[|a| - 1] in a;
      var m, n := |a| - 1, |b| - 1;
      LargestLast(a, b);
      forall x ensures x in a[..m] <==> x in b[..n] {
        OthersBefore(a, x);
        OthersBefore(b, x);
      }
      SortedUnique(a[..m], b[..n]);
      assert a == a[..m] + [a[m]] && b == b[..n] + [b[n]];
    }
  }

  lemma LargestLast(a: seq<ForeignKeyShape>, b: seq<ForeignKeyShape>)
    requires Sorted(a) && Sorted(b) && a != [] && b != [] && forall x :: x in a <==> x in b
    ensures a[|a| - 1] == b[|b| - 1]
  {
    assert a[|a| - 1] in a && b[|b| - 1] in b;
    var i :| 0 <= i < |b| && b[i] == a[|a| - 1];
    var j :| 0 <= j < |a| && a[j] == b[|b| - 1];
  }

  lemma OthersBefore(a: seq<ForeignKeyShape>, x: ForeignKeyShape)
    requires Sorted(a) && a != []
    ensures x in a[..|a| - 1] <==> x in a && x != a[|a| - 1]
  {
    assert a == a[..|a| - 1] + [a[|a| - 1]];
  }

  lemma {:induction false} SameMembers(a: seq<ForeignKeyShape>, b: seq<ForeignKeyShape>, id: string)
    requires multiset(a) == multiset(b) && PositionsDistinct(a) && PositionsDistinct(b)
    ensures Members(a, id) == Members(b, id)
  {
    MembersSorted(a, id);
    MembersSorted(b, id);
    forall x ensures x in a <==> x in b {
      assert x in a <==> x in multiset(a);
      assert x in b <==> x in multiset(b);
    }
    SortedUnique(Members(a, id), Members(b, id));
  }

  lemma RemoveBeforeLast<T>(s: seq<T>, i: nat)
    requires i < |s| - 1
    ensures
      var n := |s| - 1;
      && s[..i] + s[i + 1..] == (s[..n][..i] + s[..n][i + 1..]) + [s[n]]
      && s[..n][i] == s[i]
  {
  }

  function LoneGroup(fk: ForeignKeyShape): multiset<seq<Pair>> {
    if fk.constraint.None? then multiset{[fk.pair]} else multiset{}
  }

  lemma {:induction false} LoneNext(fks: seq<ForeignKeyShape>, fk: ForeignKeyShape)
    ensures LoneGroups(fks + [fk]) == LoneGroups(fks) + LoneGroup(fk)
  {
    assert (fks + [fk])[..|fks|] == fks;
  }

  lemma Swapped(a: multiset<seq<Pair>>, b: multiset<seq<Pair>>, c: multiset<seq<Pair>>)
    ensures a + b + c == a + c + b
  {
  }

  lemma {:induction false} LoneRemove(fks: seq<ForeignKeyShape>, i: nat)
    requires i < |fks|
    ensures LoneGroups(fks) == LoneGroups(fks[..i] + fks[i + 1..]) + LoneGroup(fks[i])
    decreases |fks|
  {
    var n := |fks| - 1;
    var before := fks[..n];
    LoneNext(before, fks[n]);
    assert before + [fks[n]] == fks;
    if i == n {
      assert fks[..i] + fks[i + 1..] == before;
    } else {
      LoneRemove(before, i);
      RemoveBeforeLast(fks, i);
      LoneNext(before[..i] + before[i + 1..], fks[n]);
      Swapped(LoneGroups(before[..i] + before[i + 1..]), LoneGroup(fks[i]), LoneGroup(fks[n]));
    }
  }

  lemma WithoutOne(fks: seq<ForeignKeyShape>, i: nat)
    requires i < |fks|
    ensures multiset(fks[..i] + fks[i + 1..]) == multiset(fks) - multiset{fks[i]}
  {
    assert fks == fks[..i] + [fks[i]] + fks[i + 1..];
  }

  lemma {:induction false} LonePermuted(a: seq<ForeignKeyShape>, b: seq<ForeignKeyShape>)
    requires multiset(a) == multiset(b)
    ensures LoneGroups(a) == LoneGroups(b)
    decreases |a|
  {
    if a == [] {
      assert |multiset(b)| == 0;
    } else {
      var n := |a| - 1;
      assert a == a[..n] + [a[n]];
      assert a[n] in multiset(a);
      var i :| 0 <= i < |b| && b[i] == a[n];
      var rest := b[..i] + b[i + 1..];
      WithoutOne(b, i);
      WithoutOne(a, n);
      assert a[..n] + a[n + 1..] == a[..n];
      LonePermuted(a[..n], rest);
      LoneRemove(b, i);
    }
  }

  lemma {:induction false} NamedNext(fks: seq<ForeignKeyShape>, ids: seq<string>, id: string)
    ensures NamedGroups(fks, ids + [id]) == NamedGroups(fks, ids) + multiset{Pairs(Members(fks, id))}
  {
    assert (ids + [id])[..|ids|] == ids;
  }

  lemma {:induction false} NamedRemove(fks: seq<ForeignKeyShape>, ids: seq<string>, i: nat)
    requires i < |ids|
    ensures NamedGroups(fks, ids)
            == NamedGroups(fks, ids[..i] + ids[i + 1..]) + multiset{Pairs(Members(fks, ids[i]))}
    decreases |ids|
  {
    var n := |ids| - 1;
    var before := ids[..n];
    NamedNext(fks, before, ids[n]);
    assert before + [ids[n]] == ids;
    if i == n {
      assert ids[..i] + ids[i + 1..] == before;
    } else {
      NamedRemove(fks, before, i);
      RemoveBeforeLast(ids, i);
      NamedNext(fks, before[..i] + before[i + 1..], ids[n]);
      Swapped(NamedGroups(fks, before[..i] + before[i + 1..]), multiset{Pairs(Members(fks, ids[i]))},
              multiset{Pairs(Members(fks, ids[n]))});
    }
  }

  lemma {:induction false} NamedPermuted(a: seq<ForeignKeyShape>, b: seq<ForeignKeyShape>, ids: seq<string>, other: seq<string>)
    requires multiset(a) == multiset(b) && PositionsDistinct(a) && PositionsDistinct(b)
    requires NoDuplicates(ids) && NoDuplicates(other) && forall id :: id in ids <==> id in other
    ensures NamedGroups(a, ids) == NamedGroups(b, other)
    decreases |ids|
  {
    if ids == [] {
      HoldsSomething(other);
    } else {
      var n := |ids| - 1;
      var last := ids[n];
      assert last in ids;
      var i :| 0 <= i < |other| && other[i] == last;
      var rest := other[..i] + other[i + 1..];
      RestOf(ids, n);
      RestOf(other, i);
      assert ids[..n] + ids[n + 1..] == ids[..n];
      forall id ensures id in ids[..n] <==> id in rest {
        assert id in ids[..n] + ids[n + 1..] <==> id in ids && id != last;
      }
      NamedPermuted(a, b, ids[..n], rest);
      NamedRemove(b, other, i);
      SameMembers(a, b, last);
    }
  }

  lemma RestOf(ids: seq<string>, i: nat)
    requires NoDuplicates(ids) && i < |ids|
    ensures NoDuplicates(ids[..i] + ids[i + 1..])
    ensures forall id :: id in ids[..i] + ids[i + 1..] <==> id in ids && id != ids[i]
  {
    var rest := ids[..i] + ids[i + 1..];
    forall k | 0 <= k < |ids| && k != i ensures ids[k] in rest {
      assert if k < i then rest[k] == ids[k] else rest[k - 1] == ids[k];
    }
    forall k | 0 <= k < |rest| ensures rest[k] in ids && rest[k] != ids[i] {
      assert rest[k] == if k < i then ids[k] else ids[k + 1];
    }
  }

  /** Nor does the order in which the catalog lists the rows. */
  lemma GroupsForgetOrder(a: seq<ForeignKeyShape>, b: seq<ForeignKeyShape>)
    requires multiset(a) == multiset(b) && PositionsDistinct(a) && PositionsDistinct(b)
    ensures Groups(a) == Groups(b)
  {
    ConstraintsListed(a);
    ConstraintsListed(b);
    forall id ensures id in Constraints(a) <==> id in Constraints(b) {
      if id in Constraints(a) {
        SameConstraint(a, b, id);
      }
      if id in Constraints(b) {
        SameConstraint(b, a, id);
      }
    }
    NamedPermuted(a, b, Constraints(a), Constraints(b));
    LonePermuted(a, b);
  }

  lemma {:induction false} SameConstraint(a: seq<ForeignKeyShape>, b: seq<ForeignKeyShape>, id: string)
    requires multiset(a) == multiset(b) && id in Constraints(a)
    ensures id in Constraints(b)
  {
    ConstraintsListed(a);
    ConstraintsListed(b);
    var i :| 0 <= i < |a| && a[i].constraint == Some(id);
    assert a[i] in multiset(b);
    var j :| 0 <= j < |b| && b[j] == a[i];
    assert b[j].constraint == Some(id);
  }

  // ----- the report and its evidence -----

  predicate HasDrift(facts: seq<Fact>) {
    exists i :: 0 <= i < |facts| && facts[i].status.Drift?
  }

  /** Facts were added, with drift among them exactly when something did not match. */
  predicate Evidenced(before: seq<Fact>, after: seq<Fact>, matched: bool) {
    before <= after && (HasDrift(after) <==> HasDrift(before) || !matched)
  }

  /** Issues were added exactly when something did not match. */
  predicate Reported(before: seq<Issue>, after: seq<Issue>, matched: bool) {
    before <= after && (after == before <==> matched)
  }

  lemma EvidencedTwice(a: seq<Fact>, b: seq<Fact>, c: seq<Fact>, first: bool, second: bool)
    requires Evidenced(a, b, first) && Evidenced(b, c, second)
    ensures Evidenced(a, c, first && second)
  {
  }

  lemma ReportedTwice(a: seq<Issue>, b: seq<Issue>, c: seq<Issue>, first: bool, second: bool)
    requires Reported(a, b, first) && Reported(b, c, second)
    ensures Reported(a, c, first && second)
  {
  }

  lemma DriftAppended(facts: seq<Fact>, fact: Fact)
    ensures Evidenced(facts, facts + [fact], !fact.status.Drift?)
  {
    var more := facts + [fact];
    if HasDrift(facts) {
      var i :| 0 <= i < |facts| && facts[i].status.Drift?;
      assert more[i].status.Drift?;
    }
    if fact.status.Drift? {
      assert more[|facts|].status.Drift?;
    }
  }

  /** One occurrence of every expected pair is matched off; what is left on each side is exactly the
      difference of the multisets. */
  method MatchOff(expected: seq<Pair>, actual: seq<Pair>) returns (missing: seq<Pair>, extra: seq<Pair>)
    ensures multiset(missing) == multiset(expected) - multiset(actual)
    ensures multiset(extra) == multiset(actual) - multiset(expected)
  {
    missing, extra := [], actual;
    ghost var seen: multiset<Pair> := multiset{};
    for i := 0 to |expected|
      invariant seen == multiset(expected[..i])
      invariant multiset(missing) == seen - multiset(actual)
      invariant multiset(extra) == multiset(actual) - seen
    {
      SeenNext(expected, i);
      MatchStep(seen, multiset(actual), expected[i]);
      seen := seen + multiset{expected[i]};
      var at := IndexOf(extra, expected[i]);
      if at.Some? {
        extra := WithoutPair(extra, at.value);
      } else {
        missing := missing + [expected[i]];
      }
    }
    assert expected[..|expected|] == expected;
  }

  lemma SeenNext(pairs: seq<Pair>, i: nat)
    requires i < |pairs|
    ensures multiset(pairs[..i + 1]) == multiset(pairs[..i]) + multiset{pairs[i]}
  {
    assert pairs[..i + 1] == pairs[..i] + [pairs[i]];
  }

  lemma MatchStep(e: multiset<Pair>, a: multiset<Pair>, p: Pair)
    ensures p in a - e ==> e + multiset{p} - a == e - a && a - (e + multiset{p}) == a - e - multiset{p}
    ensures p !in a - e ==> e + multiset{p} - a == e - a + multiset{p} && a - (e + multiset{p}) == a - e
  {
  }

  function WithoutPair(pairs: seq<Pair>, i: nat): (r: seq<Pair>)
    requires i < |pairs|
    ensures multiset(r) == multiset(pairs) - multiset{pairs[i]}
  {
    assert pairs == pairs[..i] + [pairs[i]] + pairs[i + 1..];
    pairs[..i] + pairs[i + 1..]
  }

  method IndexOf(pairs: seq<Pair>, p: Pair) returns (at: Option<nat>)
    ensures at.None? ==> p !in pairs
    ensures at.Some? ==> at.value < |pairs| && pairs[at.value] == p
  {
    for i := 0 to |pairs|
      invariant p !in pairs[..i]
    {
      if pairs[i] == p {
        return Some(i);
      }
    }
    at := None;
  }

  lemma NothingLeft(expected: seq<Pair>, actual: seq<Pair>, missing: seq<Pair>, extra: seq<Pair>)
    requires multiset(missing) == multiset(expected) - multiset(actual)
    requires multiset(extra) == multiset(actual) - multiset(expected)
    ensures missing == [] && extra == [] <==> multiset(expected) == multiset(actual)
  {
    if missing == [] && extra == [] {
      forall p ensures multiset(expected)[p] == multiset(actual)[p] {
        assert multiset(missing)[p] == 0 && multiset(extra)[p] == 0;
      }
    }
    assert |missing| == |multiset(missing)| && |extra| == |multiset(extra)|;
  }

  /** Collects the constraint groups in one pass over the rows. */
  method CountGroups(fks: seq<ForeignKeyShape>) returns (groups: multiset<seq<Pair>>)
    ensures groups == Groups(fks)
  {
    var order: seq<string>, members: map<string, seq<ForeignKeyShape>> := [], map[];
    var lone: multiset<seq<Pair>> := multiset{};
    for i := 0 to |fks|
      invariant Collected(fks[..i], order, members, lone)
    {
      var fk := fks[i];
      assert fks[..i + 1] == fks[..i] + [fk];
      if fk.constraint.None? {
        CollectLone(fks[..i], order, members, lone, fk);
        lone := lone + multiset{[fk.pair]};
      } else {
        var id := fk.constraint.value;
        if id !in order {
          CollectNew(fks[..i], order, members, lone, fk);
          order := order + [id];
          members := members[id := [fk]];
        } else {
          CollectOld(fks[..i], order, members, lone, fk);
          members := members[id := InsertByPosition(members[id], fk)];
        }
      }
    }
    assert fks[..|fks|] == fks;
    groups := CountNamed(fks, order, members);
    groups := groups + lone;
  }

  /** What the pass has gathered from the rows so far. */
  ghost predicate Collected(fks: seq<ForeignKeyShape>, order: seq<string>, members: map<string, seq<ForeignKeyShape>>,
                            lone: multiset<seq<Pair>>)
  {
    && order == Constraints(fks) && lone == LoneGroups(fks)
    && (forall id :: id in members <==> id in order)
    && (forall id :: id in members ==> members[id] == Members(fks, id))
  }

  lemma ConstraintsStep(fks: seq<ForeignKeyShape>, fk: ForeignKeyShape)
    ensures Constraints(fks + [fk])
            == if fk.constraint.Some? && fk.constraint.value !in Constraints(fks) then Constraints(fks) + [fk.constraint.value]
               else Constraints(fks)
  {
    assert (fks + [fk])[..|fks|] == fks;
  }

  lemma MembersStep(fks: seq<ForeignKeyShape>, fk: ForeignKeyShape, id: string)
    ensures Members(fks + [fk], id)
            == if fk.constraint == Some(id) then InsertByPosition(Members(fks, id), fk) else Members(fks, id)
  {
    assert (fks + [fk])[..|fks|] == fks;
  }

  lemma CollectLone(fks: seq<ForeignKeyShape>, order: seq<string>, members: map<string, seq<ForeignKeyShape>>,
                    lone: multiset<seq<Pair>>, fk: ForeignKeyShape)
    requires Collected(fks, order, members, lone) && fk.constraint.None?
    ensures Collected(fks + [fk], order, members, lone + multiset{[fk.pair]})
  {
    ConstraintsStep(fks, fk);
    LoneNext(fks, fk);
    forall id | id in members ensures members[id] == Members(fks + [fk], id) {
      MembersStep(fks, fk, id);
    }
  }

  lemma CollectOld(fks: seq<ForeignKeyShape>, order: seq<string>, members: map<string, seq<ForeignKeyShape>>,
                   lone: multiset<seq<Pair>>, fk: ForeignKeyShape)
    requires Collected(fks, order, members, lone) && fk.constraint.Some? && fk.constraint.value in order
    ensures Collected(fks + [fk], order, members[fk.constraint.value := InsertByPosition(members[fk.constraint.value], fk)],
                      lone)
  {
    var own := fk.constraint.value;
    var more := members[own := InsertByPosition(members[own], fk)];
    ConstraintsStep(fks, fk);
    LoneNext(fks, fk);
    forall id | id in more ensures more[id] == Members(fks + [fk], id) {
      MembersStep(fks, fk, id);
    }
  }

  lemma CollectNew(fks: seq<ForeignKeyShape>, order: seq<string>, members: map<string, seq<ForeignKeyShape>>,
                   lone: multiset<seq<Pair>>, fk: ForeignKeyShape)
    requires Collected(fks, order, members, lone) && fk.constraint.Some? && fk.constraint.value !in order
    ensures Collected(fks + [fk], order + [fk.constraint.value], members[fk.constraint.value := [fk]], lone)
  {
    var own := fk.constraint.value;
    var more := members[own := [fk]];
    ConstraintsStep(fks, fk);
    LoneNext(fks, fk);
    ConstraintsListed(fks);
    NoMembers(fks, own);
    forall id | id in more ensures more[id] == Members(fks + [fk], id) {
      MembersStep(fks, fk, id);
    }
  }

  method CountNamed(ghost fks: seq<ForeignKeyShape>, order: seq<string>, members: map<string, seq<ForeignKeyShape>>)
    returns (groups: multiset<seq<Pair>>)
    requires forall id :: id in order ==> id in members && members[id] == Members(fks, id)
    ensures groups == NamedGroups(fks, order)
  {
    groups := multiset{};
    for i := 0 to |order|
      invariant groups == NamedGroups(fks, order[..i])
    {
      assert order[..i + 1] == order[..i] + [order[i]];
      NamedNext(fks, order[..i], order[i]);
      groups := groups + multiset{Pairs(members[order[i]])};
    }
    assert order[..|order|] == order;
  }

  class Comparison {
    const rules: Rules
    var facts: seq<Fact>
    var issues: seq<Issue>

    constructor (rules: Rules)
      ensures this.rules == rules && facts == [] && issues == []
    {
      this.rules := rules;
      facts, issues := [], [];
    }

    method Check(kind: string, name: Option<string>, matches: bool)
      modifies this`facts
      ensures Evidenced(old(facts), facts, matches)
      ensures facts == old(facts) + [Fact(kind, name, if matches then Matched else Drift)]
    {
      var fact := Fact(kind, name, if matches then Matched else Drift);
      DriftAppended(facts, fact);
      facts := facts + [fact];
    }

    method Leave(kind: string, name: Option<string>)
      modifies this`facts
      ensures Evidenced(old(facts), facts, true)
      ensures facts == old(facts) + [Fact(kind, name, Unchecked)]
    {
      DriftAppended(facts, Fact(kind, name, Unchecked));
      facts := facts + [Fact(kind, name, Unchecked)];
    }

    method Report(kind: string, name: Option<string>)
      modifies this`issues
      ensures Reported(old(issues), issues, false)
    {
      issues := issues + [Issue(kind, name)];
    }

    method DiffStorage(e: seq<string>, a: seq<string>)
      modifies this
      ensures Evidenced(old(facts), facts, e == a) && Reported(old(issues), issues, e == a)
    {
      Check("table.storage_options", None, e == a);
      if e != a {
        Report("table.storage_options", None);
      }
    }

    /** Issues for names on one side only, then a presence fact for every name. */
    method DiffPresence(kind: string, e: set<string>, a: set<string>)
      modifies this
      ensures Evidenced(old(facts), facts, e == a) && Reported(old(issues), issues, e == a)
    {
      ReportAll(kind + " missing", e - a);
      ghost var middle := issues;
      ReportAll(kind + " unexpected", a - e);
      ReportedTwice(old(issues), middle, issues, e - a == {}, a - e == {});
      assert e == a <==> e - a == {} && a - e == {};
      NotePresence(kind, e, a);
    }

    method NotePresence(kind: string, e: set<string>, a: set<string>)
      modifies this`facts
      ensures Evidenced(old(facts), facts, e == a)
    {
      var todo := e + a;
      while todo != {}
        invariant todo <= e + a
        invariant Evidenced(old(facts), facts, forall n :: n in e + a && n !in todo ==> n in e && n in a)
      {
        var name :| name in todo;
        ghost var before := facts;
        Check(kind + ".presence", Some(name), name in e && name in a);
        EvidencedTwice(old(facts), before, facts,
                       forall n :: n in e + a && n !in todo ==> n in e && n in a, name in e && name in a);
        todo := todo - {name};
      }
      assert e == a <==> forall n :: n in e + a ==> n in e && n in a;
    }

    method ReportAll(kind: string, names: set<string>)
      modifies this`issues
      ensures Reported(old(issues), issues, names == {})
    {
      var todo := names;
      while todo != {}
        invariant todo <= names
        invariant Reported(old(issues), issues, todo == names)
      {
        var name :| name in todo;
        ghost var before := issues;
        Report(kind, Some(name));
        ReportedTwice(old(issues), before, issues, todo == names, false);
        todo := todo - {name};
      }
    }

    /** A property both sides leave open is no evidence at all. */
    method CheckProperty(kind: string, name: string, same: bool, open: bool) returns (differs: bool)
      requires open ==> same
      modifies this`facts
      ensures Evidenced(old(facts), facts, same) && differs == !same
    {
      if !open {
        Check(kind, Some(name), same);
      }
      differs := !same;
    }

    method CheckDefault(name: string, e: ColumnShape, a: ColumnShape) returns (differs: bool)
      modifies this`facts
      ensures Evidenced(old(facts), facts, !DefaultDrifts(rules, e, a)) && differs == DefaultDrifts(rules, e, a)
    {
      if e.serverDefault.LiteralDefault? {
        var status := rules.compareDefault(e.serverDefault.value, a.serverDefault, a.nullable);
        DriftAppended(facts, Fact("column.server_default", Some(name), status));
        facts := facts + [Fact("column.server_default", Some(name), status)];
        return status.Drift?;
      }
      differs := CheckProperty("column.server_default", name, e.serverDefault == a.serverDefault, false);
    }

    /** Four plain properties, the default, and three that may be open on both sides. */
    method ColumnDifferences(name: string, e: ColumnShape, a: ColumnShape) returns (differs: bool)
      modifies this`facts
      ensures Evidenced(old(facts), facts, ColumnMatches(rules, e, a)) && differs == !ColumnMatches(rules, e, a)
    {
      var d1 := CheckProperty("column.type", name, e.storageType == a.storageType, false);
      var d2 := CheckProperty("column.nullable", name, e.nullable == a.nullable, false);
      var d3 := CheckProperty("column.primary_key", name, e.primaryKey == a.primaryKey, false);
      var d4 := CheckProperty("column.auto_increment", name, e.autoIncrement == a.autoIncrement, false);
      var d5 := CheckDefault(name, e, a);
      var d6 := CheckProperty("column.collation", name, e.collation == a.collation,
                              e.collation.None? && a.collation.None?);
      var d7 := CheckProperty("column.datetime_precision", name, e.datetimePrecision == a.datetimePrecision,
                              e.datetimePrecision.None? && a.datetimePrecision.None?);
      var d8 := CheckProperty("column.unsigned", name, e.unsigned == a.unsigned,
                              e.unsigned.None? && a.unsigned.None?);
      differs := d1 || d2 || d3 || d4 || d5 || d6 || d7 || d8;
    }

    method DiffColumns(e: map<string, ColumnShape>, a: map<string, ColumnShape>)
      modifies this
      ensures Evidenced(old(facts), facts, ColumnsMatch(rules, e, a))
      ensures Reported(old(issues), issues, ColumnsMatch(rules, e, a))
    {
      DiffPresence("column", e.Keys, a.Keys);
      var todo := e.Keys * a.Keys;
      while todo != {}
        invariant todo <= e.Keys * a.Keys
        invariant Evidenced(old(facts), facts, e.Keys == a.Keys && ColumnsChecked(rules, e, a, todo))
        invariant Reported(old(issues), issues, e.Keys == a.Keys && ColumnsChecked(rules, e, a, todo))
      {
        var name :| name in todo;
        ghost var facts1, issues1 := facts, issues;
        ghost var checked := e.Keys == a.Keys && ColumnsChecked(rules, e, a, todo);
        var matches := ColumnMatches(rules, e[name], a[name]);
        var differs := ColumnDifferences(name, e[name], a[name]);
        if differs {
          Report("column differs", Some(name));
        }
        EvidencedTwice(old(facts), facts1, facts, checked, matches);
        ReportedTwice(old(issues), issues1, issues, checked, matches);
        todo := todo - {name};
      }
    }

    method IndexDifferences(name: string, e: IndexShape, a: IndexShape) returns (differs: bool)
      modifies this`facts
      ensures Evidenced(old(facts), facts, IndexMatches(rules, e, a)) && differs == !IndexMatches(rules, e, a)
    {
      var d1 := CheckProperty("index.columns", name, e.columnNames == a.columnNames, false);
      var d2 := CheckProperty("index.unique", name, e.unique == a.unique, false);
      var d3 := CheckProperty("index.partial", name, e.partial == a.partial, e.partial.None? && a.partial.None?);
      var d4 := CheckProperty("index.prefix_lengths", name, e.prefixLengths == a.prefixLengths,
                              e.prefixLengths.None? && a.prefixLengths.None?);
      var d5 := CheckProperty("index.type", name, e.indexType == a.indexType, e.indexType.None? && a.indexType.None?);
      differs := d1 || d2 || d3 || d4 || d5;
      if e.filter.Some? {
        if FilterUnknown(a) {
          Leave("index.predicate", Some(name));
        } else {
          var same := a.filter.Some? && rules.sameExpression(e.filter.value, a.filter.value);
          var d6 := CheckProperty("index.predicate", name, same, false);
          differs := differs || d6;
        }
      }
    }

    method DiffIndexes(e: map<string, IndexShape>, a: map<string, IndexShape>)
      modifies this
      ensures Evidenced(old(facts), facts, IndexesMatch(rules, e, a))
      ensures Reported(old(issues), issues, IndexesMatch(rules, e, a))
    {
      DiffPresence("index", e.Keys, a.Keys);
      var todo := e.Keys * a.Keys;
      while todo != {}
        invariant todo <= e.Keys * a.Keys
        invariant Evidenced(old(facts), facts, e.Keys == a.Keys && IndexesChecked(rules, e, a, todo))
        invariant Reported(old(issues), issues, e.Keys == a.Keys && IndexesChecked(rules, e, a, todo))
      {
        var name :| name in todo;
        ghost var facts1, issues1 := facts, issues;
        ghost var checked := e.Keys == a.Keys && IndexesChecked(rules, e, a, todo);
        var matches := IndexMatches(rules, e[name], a[name]);
        var differs := IndexDifferences(name, e[name], a[name]);
        if differs {
          Report("index differs", Some(name));
        }
        EvidencedTwice(old(facts), facts1, facts, checked, matches);
        ReportedTwice(old(issues), issues1, issues, checked, matches);
        todo := todo - {name};
      }
    }

    /** The pairs of one column: paired differences first, then what is left on either side. */
    method DiffColumnPairs(column: string, e: seq<Pair>, a: seq<Pair>)
      modifies this
      ensures Evidenced(old(facts), facts, multiset(e) == multiset(a))
      ensures Reported(old(issues), issues, multiset(e) == multiset(a))
    {
      var missing, extra := MatchOff(e, a);
      NothingLeft(e, a, missing, extra);
      var paired := if |missing| < |extra| then |missing| else |extra|;
      var count := |missing| + |extra| - paired;
      for i := 0 to count
        invariant Reported(old(issues), issues, i == 0) && facts == old(facts)
      {
        ghost var before := issues;
        Report(if i < paired then "foreign key differs" else if |missing| > |extra| then "foreign key missing"
               else "foreign key unexpected", Some(column));
        ReportedTwice(old(issues), before, issues, i == 0, false);
      }
      Check("foreign_key.relationships", Some(column), count == 0);
    }

    /** Column by column, then the ordered groups; a difference only the groups show is reported too. */
    method DiffForeignKeys(e: seq<ForeignKeyShape>, a: seq<ForeignKeyShape>)
      modifies this
      ensures Evidenced(old(facts), facts, Groups(e) == Groups(a))
      ensures Reported(old(issues), issues, Groups(e) == Groups(a))
    {
      var previous := |issues|;
      var columns := ColumnsOf(e) + ColumnsOf(a);
      if columns == {} {
        Check("foreign_key.relationships", None, true);
      }
      var todo := columns;
      while todo != {}
        invariant todo <= columns
        invariant Evidenced(old(facts), facts, PairsChecked(e, a, columns - todo))
        invariant Reported(old(issues), issues, PairsChecked(e, a, columns - todo))
      {
        var column :| column in todo;
        ghost var facts1, issues1, checked := facts, issues, PairsChecked(e, a, columns - todo);
        var expected, actual := ColumnPairs(e, column), ColumnPairs(a, column);
        DiffColumnPairs(column, expected, actual);
        EvidencedTwice(old(facts), facts1, facts, checked, multiset(expected) == multiset(actual));
        ReportedTwice(old(issues), issues1, issues, checked, multiset(expected) == multiset(actual));
        OneMoreColumn(e, a, columns - todo, column);
        todo := todo - {column};
        assert columns - todo == columns - (todo + {column}) + {column};
      }
      assert columns - todo == columns;
      GroupsDecideColumns(e, a, columns);
      var expectedGroups := CountGroups(e);
      var actualGroups := CountGroups(a);
      ghost var facts2 := facts;
      Check("foreign_keys.grouping", None, expectedGroups == actualGroups);
      EvidencedTwice(old(facts), facts2, facts, PairsChecked(e, a, columns), Groups(e) == Groups(a));
      if expectedGroups != actualGroups && |issues| == previous {
        Report("foreign_keys.grouping", None);
      }
    }

    method DiffCheck(e: CheckShape, a: Option<seq<CheckShape>>)
      modifies this
      ensures facts == old(facts) + CheckFacts(rules, e, a)
      ensures Evidenced(old(facts), facts, CheckMatches(rules, e, a))
      ensures Reported(old(issues), issues, CheckMatches(rules, e, a))
    {
      if a.None? {
        Leave("check.presence", e.name);
        return;
      }
      var found := Named(a.value, e.name);
      Check("check.presence", e.name, found != []);
      if found == [] {
        Report("check missing", e.name);
        return;
      }
      if |found| != 1 || found[0].expression.None? {
        Leave("check.expression", e.name);
        return;
      }
      var same := e.expression.Some? && rules.sameExpression(found[0].expression.value, e.expression.value);
      Check("check.expression", e.name, same);
      if !same {
        Report("check differs", e.name);
      }
    }

    method DiffDeclared(expected: seq<CheckShape>, a: Option<seq<CheckShape>>)
      modifies this
      ensures Evidenced(old(facts), facts, ChecksChecked(rules, expected, a, |expected|))
      ensures Reported(old(issues), issues, ChecksChecked(rules, expected, a, |expected|))
    {
      for i := 0 to |expected|
        invariant Evidenced(old(facts), facts, ChecksChecked(rules, expected, a, i))
        invariant Reported(old(issues), issues, ChecksChecked(rules, expected, a, i))
      {
        ghost var facts1, issues1, checked := facts, issues, ChecksChecked(rules, expected, a, i);
        ghost var matches := CheckMatches(rules, expected[i], a);
        DiffCheck(expected[i], a);
        EvidencedTwice(old(facts), facts1, facts, checked, matches);
        ReportedTwice(old(issues), issues1, issues, checked, matches);
        OneMoreCheck(rules, expected, a, i);
      }
    }

    method LeaveUnmanaged(expected: seq<CheckShape>, actual: seq<CheckShape>)
      modifies this`facts
      ensures Evidenced(old(facts), facts, true)
    {
      for i := 0 to |actual|
        invariant Evidenced(old(facts), facts, true)
      {
        if Named(expected, actual[i].name) == [] {
          ghost var before := facts;
          Leave("check.unmanaged", actual[i].name);
          EvidencedTwice(old(facts), before, facts, true, true);
        }
      }
    }

    method DiffChecks(e: Option<seq<CheckShape>>, a: Option<seq<CheckShape>>)
      modifies this
      ensures Evidenced(old(facts), facts, ChecksMatch(rules, e, a))
      ensures Reported(old(issues), issues, ChecksMatch(rules, e, a))
    {
      var expected := if e.None? then [] else e.value;
      DiffDeclared(expected, a);
      assert ChecksMatch(rules, e, a) <==> ChecksChecked(rules, expected, a, |expected|);
      if a.Some? {
        ghost var before := facts;
        LeaveUnmanaged(expected, a.value);
        EvidencedTwice(old(facts), before, facts, ChecksMatch(rules, e, a), true);
      }
    }
  }

  lemma OneMoreCheck(r: Rules, expected: seq<CheckShape>, a: Option<seq<CheckShape>>, n: nat)
    requires n < |expected|
    ensures ChecksChecked(r, expected, a, n + 1) <==> ChecksChecked(r, expected, a, n) && CheckMatches(r, expected[n], a)
  {
  }

  predicate ChecksChecked(r: Rules, expected: seq<CheckShape>, a: Option<seq<CheckShape>>, n: nat)
    requires n <= |expected|
  {
    forall k :: 0 <= k < n ==> CheckMatches(r, expected[k], a)
  }

  predicate ColumnsChecked(r: Rules, e: map<string, ColumnShape>, a: map<string, ColumnShape>, todo: set<string>) {
    forall name :: name in e && name in a && name !in todo ==> ColumnMatches(r, e[name], a[name])
  }

  predicate IndexesChecked(r: Rules, e: map<string, IndexShape>, a: map<string, IndexShape>, todo: set<string>) {
    forall name :: name in e && name in a && name !in todo ==> IndexMatches(r, e[name], a[name])
  }

  function ColumnsOf(fks: seq<ForeignKeyShape>): set<string> {
    set fk | fk in fks :: fk.pair.column
  }

  predicate PairsChecked(e: seq<ForeignKeyShape>, a: seq<ForeignKeyShape>, columns: set<string>) {
    forall c :: c in columns ==> multiset(ColumnPairs(e, c)) == multiset(ColumnPairs(a, c))
  }

  lemma {:induction false} OneMoreColumn(e: seq<ForeignKeyShape>, a: seq<ForeignKeyShape>, columns: set<string>, c: string)
    ensures PairsChecked(e, a, columns + {c})
            <==> PairsChecked(e, a, columns) && multiset(ColumnPairs(e, c)) == multiset(ColumnPairs(a, c))
  {
    assert PairsChecked(e, a, columns + {c}) ==> PairsChecked(e, a, columns);
  }

  lemma GroupsDecideColumns(e: seq<ForeignKeyShape>, a: seq<ForeignKeyShape>, columns: set<string>)
    ensures Groups(e) == Groups(a) ==> PairsChecked(e, a, columns)
  {
    if Groups(e) == Groups(a) {
      GroupsDecidePairs(e, a);
      forall c | c in columns ensures multiset(ColumnPairs(e, c)) == multiset(ColumnPairs(a, c)) {
        PairsDecideColumns(e, a, c);
      }
    }
  }

  // ----- the whole comparison -----

  predicate ShapesMatch(r: Rules, e: TableShape, a: TableShape) {
    && e.storageOptions == a.storageOptions
    && ColumnsMatch(r, e.columns, a.columns)
    && IndexesMatch(r, e.indexes, a.indexes)
    && Groups(e.foreignKeys) == Groups(a.foreignKeys)
    && ChecksMatch(r, e.checks, a.checks)
  }

  /** No issue is reported exactly when no fact is drift, and exactly when the shapes match. */
  method CompareTableShapes(rules: Rules, e: TableShape, a: TableShape, limits: seq<string>)
    returns (issues: seq<Issue>, facts: seq<Fact>)
    ensures issues == [] <==> ShapesMatch(rules, e, a)
    ensures HasDrift(facts) <==> !ShapesMatch(rules, e, a)
  {
    var c := new Comparison(rules);
    c.Check("table.presence", None, true);
    c.DiffStorage(e.storageOptions, a.storageOptions);
    c.DiffColumns(e.columns, a.columns);
    c.DiffIndexes(e.indexes, a.indexes);
    c.DiffForeignKeys(e.foreignKeys, a.foreignKeys);
    c.DiffChecks(e.checks, a.checks);
    for i := 0 to |limits|
      invariant (c.issues == [] <==> ShapesMatch(rules, e, a)) && (HasDrift(c.facts) <==> !ShapesMatch(rules, e, a))
    {
      c.Leave(limits[i], None);
    }
    return c.issues, c.facts;
  }
}
