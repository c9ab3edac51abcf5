/** Joined rows: expanding each source into SQL fields, and splitting the fetched row back. */
module JoinedRows {
  import opened TextCodec

  // ----- sources and shapes -----

  datatype ColumnDecl = ColumnDecl(name: string, nullable: bool)

  /** A table (or an alias of one) with its columns, or a definition with its output slots. */
  datatype Source =
    | TableSource(name: string, columns: seq<ColumnDecl>)
    | CteSource(name: string, outputs: nat, presence: string)

  datatype Field = ColumnField(source: string, column: string) | OutputField(source: string, position: nat)
                 | PresenceField(source: string, name: string)

  /** One source's visible payload and optional hidden presence witness. */
  datatype Shape = Shape(payload: seq<Field>, presence: Option<Field>)

  datatype Span = Span(nullable: bool, offset: nat, shape: Shape)

  datatype Joined = Joined(fields: seq<Field>, spans: seq<Span>)

  function Fields(shape: Shape): seq<Field> {
    if shape.presence.Some? then shape.payload + [shape.presence.value] else shape.payload
  }

  function Width(shape: Shape): nat {
    |shape.payload| + if shape.presence.Some? then 1 else 0
  }

  predicate AllNullable(columns: seq<ColumnDecl>) {
    forall i :: 0 <= i < |columns| ==> columns[i].nullable
  }

  /** A table with a NOT NULL column witnesses its own presence. */
  predicate NeedsWitness(source: Source) {
    source.CteSource? || AllNullable(source.columns)
  }

  function Payload(source: Source): seq<Field> {
    match source
    case TableSource(name, columns) =>
      seq(|columns|, i requires 0 <= i < |columns| => ColumnField(name, columns[i].name))
    case CteSource(name, outputs, _) => seq(outputs, i requires 0 <= i < outputs => OutputField(name, i))
  }

  // ----- a fresh witness name -----

  const WITNESS := "__snekql_present"

  /** Case folding, character by character. */
  function Folded(fold: char -> string, s: string): string {
    if s == "" then "" else Folded(fold, s[..|s| - 1]) + fold(s[|s| - 1])
  }

  function Underscored(s: string, n: nat): string {
    if n == 0 then s else Underscored(s, n - 1) + "_"
  }

  lemma {:induction false} FoldedUnderscore(fold: char -> string, s: string, folded: string)
    requires fold('_') == "_" && Folded(fold, s) == folded
    ensures Folded(fold, s + "_") == folded + "_"
  {
    var longer := s + "_";
    assert longer[|longer| - 1] == '_' && longer[..|longer| - 1] == s;
  }

  function AtLeast(names: set<string>, n: nat): set<string> {
    set x | x in names && |x| >= n
  }

  /** The first of the base name and its underscored variants that no taken name folds to. The search
      ends because each step makes the name longer than another taken one. */
  method FreshName(fold: char -> string, base: string, taken: set<string>) returns (name: string)
    requires fold('_') == "_"
    ensures Folded(fold, name) !in taken
    ensures exists n: nat :: name == Underscored(base, n)
              && forall k :: 0 <= k < n ==> Folded(fold, Underscored(base, k)) in taken
  {
    name := base;
    ghost var n: nat := 0;
    while Folded(fold, name) in taken
      invariant name == Underscored(base, n)
      invariant forall k :: 0 <= k < n ==> Folded(fold, Underscored(base, k)) in taken
      decreases |AtLeast(taken, |Folded(fold, name)|)|
    {
      NameGrows(fold, base, n, taken);
      name := name + "_";
      n := n + 1;
    }
  }

  lemma NameGrows(fold: char -> string, base: string, n: nat, taken: set<string>)
    requires fold('_') == "_" && Folded(fold, Underscored(base, n)) in taken
    ensures |AtLeast(taken, |Folded(fold, Underscored(base, n + 1))|)| < |AtLeast(taken, |Folded(fold, Underscored(base, n))|)|
  {
    FoldedLonger(fold, base, n);
    Shrinks(taken, Folded(fold, Underscored(base, n)));
  }

  lemma FoldedLonger(fold: char -> string, base: string, n: nat)
    requires fold('_') == "_"
    ensures |Folded(fold, Underscored(base, n + 1))| == |Folded(fold, Underscored(base, n))| + 1
  {
    var name := Underscored(base, n);
    FoldedUnderscore(fold, name, Folded(fold, name));
  }

  lemma Shrinks(names: set<string>, x: string)
    requires x in names
    ensures |AtLeast(names, |x| + 1)| < |AtLeast(names, |x|)|
  {
    var smaller, larger := AtLeast(names, |x| + 1), AtLeast(names, |x|);
    assert x in larger && x !in smaller && smaller <= larger;
    Proper(smaller, larger, x);
  }

  lemma Proper(a: set<string>, b: set<string>, x: string)
    requires a <= b && x in b && x !in a
    ensures |a| < |b|
  {
    assert b == a + (b - a);
    assert x in b - a;
    assert |b| == |a| + |b - a|;
  }

  // ----- building shapes -----

  function FoldedNames(fold: char -> string, columns: seq<ColumnDecl>): set<string> {
    set i | 0 <= i < |columns| :: Folded(fold, columns[i].name)
  }

  /** The shape shows every column in order, and hides a witness exactly where one is needed, under a
      name no column of a table folds to. */
  predicate Describes(fold: char -> string, shape: Shape, source: Source) {
    && shape.payload == Payload(source)
    && (shape.presence.Some? <==> NeedsWitness(source))
    && (shape.presence.Some? ==>
          && shape.presence.value.PresenceField? && shape.presence.value.source == source.name
          && (source.CteSource? ==> shape.presence.value.name == source.presence)
          && (source.TableSource? ==>
                forall i :: 0 <= i < |source.columns| ==>
                  Folded(fold, source.columns[i].name) != Folded(fold, shape.presence.value.name)))
  }

  method ShapeFor(fold: char -> string, source: Source) returns (shape: Shape)
    requires fold('_') == "_"
    ensures Describes(fold, shape, source)
  {
    match source
    case CteSource(name, _, presence) => shape := Shape(Payload(source), Some(PresenceField(name, presence)));
    case TableSource(name, columns) =>
      if AllNullable(columns) {
        var marker := FreshName(fold, WITNESS, FoldedNames(fold, columns));
        shape := Shape(Payload(source), Some(PresenceField(name, marker)));
      } else {
        shape := Shape(Payload(source), None);
      }
  }

  /** The width of the first `n` spans together. */
  function Total(spans: seq<Span>, n: nat): nat
    requires n <= |spans|
  {
    if n == 0 then 0 else Total(spans, n - 1) + Width(spans[n - 1].shape)
  }

  function AllFields(spans: seq<Span>, n: nat): seq<Field>
    requires n <= |spans|
  {
    if n == 0 then [] else AllFields(spans, n - 1) + Fields(spans[n - 1].shape)
  }

  predicate OffsetsAdd(spans: seq<Span>) {
    forall i {:trigger spans[i].offset} :: 0 <= i < |spans| ==> spans[i].offset == Total(spans, i)
  }

  /** Each span starts where the spans before it end, and the fields are the spans' fields in order. */
  predicate Tiled(j: Joined) {
    j.fields == AllFields(j.spans, |j.spans|) && OffsetsAdd(j.spans)
  }

  lemma {:induction false} FieldsLength(spans: seq<Span>, n: nat)
    requires n <= |spans|
    ensures |AllFields(spans, n)| == Total(spans, n)
  {
    if n > 0 {
      FieldsLength(spans, n - 1);
    }
  }

  /** Appending a span changes nothing about the ones before it. */
  lemma {:induction false} PrefixKept(spans: seq<Span>, span: Span, n: nat)
    requires n <= |spans|
    ensures Total(spans + [span], n) == Total(spans, n) && AllFields(spans + [span], n) == AllFields(spans, n)
  {
    if n > 0 {
      PrefixKept(spans, span, n - 1);
    }
  }

  lemma {:induction false} OffsetsMore(spans: seq<Span>, span: Span)
    requires OffsetsAdd(spans) && span.offset == Total(spans, |spans|)
    ensures OffsetsAdd(spans + [span])
  {
    var more := spans + [span];
    forall i | 0 <= i < |more| ensures more[i].offset == Total(more, i) {
      PrefixKept(spans, span, i);
      assert more[i].offset == if i < |spans| then spans[i].offset else span.offset;
    }
  }

  lemma {:induction false} FieldsMore(spans: seq<Span>, span: Span)
    ensures AllFields(spans + [span], |spans| + 1) == AllFields(spans, |spans|) + Fields(span.shape)
  {
    PrefixKept(spans, span, |spans|);
    assert (spans + [span])[|spans|] == span;
  }

  lemma TiledMore(j: Joined, nullable: bool, shape: Shape)
    requires Tiled(j)
    ensures Tiled(Joined(j.fields + Fields(shape), j.spans + [Span(nullable, |j.fields|, shape)]))
  {
    var span := Span(nullable, |j.fields|, shape);
    FieldsLength(j.spans, |j.spans|);
    OffsetsMore(j.spans, span);
    FieldsMore(j.spans, span);
  }

  /** The first spans describe the first sources and carry their nullability. */
  predicate AllDescribe(fold: char -> string, spans: seq<Span>, sources: seq<(Source, bool)>) {
    |spans| <= |sources| && forall i :: 0 <= i < |spans| ==>
      Describes(fold, spans[i].shape, sources[i].0) && spans[i].nullable == sources[i].1
  }

  lemma DescribesMore(fold: char -> string, spans: seq<Span>, sources: seq<(Source, bool)>, span: Span)
    requires AllDescribe(fold, spans, sources) && |spans| < |sources|
    requires Describes(fold, span.shape, sources[|spans|].0) && span.nullable == sources[|spans|].1
    ensures AllDescribe(fold, spans + [span], sources)
  {
    var more := spans + [span];
    forall i | 0 <= i < |more|
      ensures Describes(fold, more[i].shape, sources[i].0) && more[i].nullable == sources[i].1
    {
      assert more[i] == if i < |spans| then spans[i] else span;
    }
  }

  /** The first source is never absent; a joined one may be if its join is LEFT. */
  method ShapeForSources(fold: char -> string, sources: seq<(Source, bool)>) returns (j: Joined)
    requires fold('_') == "_"
    ensures Tiled(j) && |j.spans| == |sources| && AllDescribe(fold, j.spans, sources)
  {
    var fields: seq<Field>, spans: seq<Span> := [], [];
    for i := 0 to |sources|
      invariant |spans| == i && Tiled(Joined(fields, spans)) && AllDescribe(fold, spans, sources)
    {
      var shape := ShapeFor(fold, sources[i].0);
      TiledMore(Joined(fields, spans), sources[i].1, shape);
      DescribesMore(fold, spans, sources, Span(sources[i].1, |fields|, shape));
      spans := spans + [Span(sources[i].1, |fields|, shape)];
      fields := fields + Fields(shape);
    }
    j := Joined(fields, spans);
  }

  lemma {:induction false} TotalGrows(spans: seq<Span>, i: nat, k: nat)
    requires i <= k <= |spans|
    ensures Total(spans, i) <= Total(spans, k)
    decreases k
  {
    if i < k {
      TotalGrows(spans, i, k - 1);
    }
  }

  predicate Holds(j: Joined, i: nat, field: nat) {
    i < |j.spans| && j.spans[i].offset <= field < j.spans[i].offset + Width(j.spans[i].shape)
  }

  /** Every SQL field belongs to exactly one span: no gap and no overlap. */
  lemma SpansTile(j: Joined, field: nat)
    requires Tiled(j) && field < |j.fields|
    ensures exists i: nat :: Holds(j, i, field)
    ensures forall i: nat, k: nat :: Holds(j, i, field) && Holds(j, k, field) ==> i == k
  {
    FieldsLength(j.spans, |j.spans|);
    var i := FindSpan(j, field, |j.spans|);
    assert Holds(j, i, field);
    forall a: nat, b: nat | Holds(j, a, field) && Holds(j, b, field) ensures a == b {
      if a < b {
        SpansApart(j, a, b);
      } else if b < a {
        SpansApart(j, b, a);
      }
    }
  }

  lemma SpansApart(j: Joined, a: nat, b: nat)
    requires Tiled(j) && a < b < |j.spans|
    ensures j.spans[a].offset + Width(j.spans[a].shape) <= j.spans[b].offset
  {
    TotalGrows(j.spans, a + 1, b);
  }

  lemma {:induction false} FindSpan(j: Joined, field: nat, n: nat) returns (i: nat)
    requires Tiled(j) && n <= |j.spans| && field < Total(j.spans, n)
    ensures Holds(j, i, field)
    decreases n
  {
    assert n > 0;
    if field >= Total(j.spans, n - 1) {
      i := n - 1;
    } else {
      i := FindSpan(j, field, n - 1);
    }
  }

  // ----- rows -----

  /** A driver value or SQL NULL. */
  type Raw = Option<int>

  function Nulls(n: nat): seq<Raw> {
    seq(n, i => None)
  }

  /** What SQL returns for one source: its payload and witness, or NULLs for an unmatched source. */
  function EncodeSource(shape: Shape, row: Option<seq<Raw>>): seq<Raw> {
    if row.None? then Nulls(Width(shape))
    else if shape.presence.Some? then row.value + [Some(1)] else row.value
  }

  /** The first `n` sources' parts of the row, one after another. */
  function EncodeParts(spans: seq<Span>, rows: seq<Option<seq<Raw>>>, n: nat): seq<Raw>
    requires n <= |spans| == |rows|
  {
    if n == 0 then [] else EncodeParts(spans, rows, n - 1) + EncodeSource(spans[n - 1].shape, rows[n - 1])
  }

  function EncodeRow(spans: seq<Span>, rows: seq<Option<seq<Raw>>>): seq<Raw>
    requires |spans| == |rows|
  {
    EncodeParts(spans, rows, |spans|)
  }

  predicate AllNull(row: seq<Raw>) {
    forall i :: 0 <= i < |row| ==> row[i].None?
  }

  /** A source's part of the fetched row: its payload, or nothing when the source is absent. */
  function MaterializeSource(shape: Shape, nullable: bool, row: seq<Raw>): Option<seq<Raw>>
    requires |row| == Width(shape)
  {
    if nullable && (if shape.presence.Some? then row[|row| - 1].None? else AllNull(row)) then None
    else Some(row[..|shape.payload|])
  }

  function MaterializeSpan(span: Span, row: seq<Raw>): Option<seq<Raw>>
    requires span.offset + Width(span.shape) <= |row|
  {
    MaterializeSource(span.shape, span.nullable, row[span.offset..span.offset + Width(span.shape)])
  }

  /** A row the source can hold: one value per visible field, none NULL in a NOT NULL column. */
  predicate Conforms(source: Source, row: seq<Raw>) {
    && |row| == |Payload(source)|
    && (source.TableSource? ==>
          forall i :: 0 <= i < |source.columns| && !source.columns[i].nullable ==> row[i].Some?)
  }

  lemma SourceRoundTrip(fold: char -> string, source: Source, shape: Shape, nullable: bool, row: Option<seq<Raw>>)
    requires Describes(fold, shape, source)
    requires row.None? ==> nullable
    requires row.Some? ==> Conforms(source, row.value)
    ensures |EncodeSource(shape, row)| == Width(shape)
    ensures MaterializeSource(shape, nullable, EncodeSource(shape, row)) == row
  {
    var encoded := EncodeSource(shape, row);
    if row.Some? {
      assert encoded[..|shape.payload|] == row.value;
      if shape.presence.None? {
        var i :| 0 <= i < |source.columns| && !source.columns[i].nullable;
        assert encoded[i].Some?;
      }
    }
  }

  predicate Fits(spans: seq<Span>, rows: seq<Option<seq<Raw>>>) {
    && |spans| == |rows|
    && forall i :: 0 <= i < |spans| ==> |EncodeSource(spans[i].shape, rows[i])| == Width(spans[i].shape)
  }

  lemma {:induction false} EncodedLength(spans: seq<Span>, rows: seq<Option<seq<Raw>>>, n: nat)
    requires Fits(spans, rows) && n <= |spans|
    ensures |EncodeParts(spans, rows, n)| == Total(spans, n)
  {
    if n > 0 {
      EncodedLength(spans, rows, n - 1);
    }
  }

  /** What follows a source's part of the encoded row. */
  lemma {:induction false} EncodedRest(spans: seq<Span>, rows: seq<Option<seq<Raw>>>, i: nat, n: nat)
    returns (rest: seq<Raw>)
    requires i < n <= |spans| == |rows|
    ensures EncodeParts(spans, rows, n)
            == EncodeParts(spans, rows, i) + EncodeSource(spans[i].shape, rows[i]) + rest
    decreases n
  {
    if i == n - 1 {
      rest := [];
    } else {
      var last := EncodeSource(spans[n - 1].shape, rows[n - 1]);
      var before := EncodedRest(spans, rows, i, n - 1);
      Assoc(EncodeParts(spans, rows, i) + EncodeSource(spans[i].shape, rows[i]), before, last);
      rest := before + last;
    }
  }

  lemma {:induction false} EncodedSlice(spans: seq<Span>, rows: seq<Option<seq<Raw>>>, i: nat)
    requires Fits(spans, rows) && i < |spans|
    ensures Total(spans, i) + Width(spans[i].shape) <= |EncodeRow(spans, rows)|
    ensures EncodeRow(spans, rows)[Total(spans, i)..Total(spans, i) + Width(spans[i].shape)]
            == EncodeSource(spans[i].shape, rows[i])
  {
    EncodedLength(spans, rows, i);
    var rest := EncodedRest(spans, rows, i, |spans|);
    MiddleSlice(EncodeParts(spans, rows, i), EncodeSource(spans[i].shape, rows[i]), rest);
  }

  lemma MiddleSlice(a: seq<Raw>, b: seq<Raw>, c: seq<Raw>)
    ensures (a + b + c)[|a|..|a| + |b|] == b
  {
  }

  /** The rows are ones their sources can hold, and only a nullable source is absent. */
  predicate Holdable(fold: char -> string, j: Joined, sources: seq<Source>, rows: seq<Option<seq<Raw>>>) {
    && |j.spans| == |sources| == |rows|
    && forall k :: 0 <= k < |sources| ==>
         && Describes(fold, j.spans[k].shape, sources[k])
         && (rows[k].None? ==> j.spans[k].nullable)
         && (rows[k].Some? ==> Conforms(sources[k], rows[k].value))
  }

  lemma HoldableFits(fold: char -> string, j: Joined, sources: seq<Source>, rows: seq<Option<seq<Raw>>>)
    requires Holdable(fold, j, sources, rows)
    ensures Fits(j.spans, rows)
  {
    forall k | 0 <= k < |sources| ensures |EncodeSource(j.spans[k].shape, rows[k])| == Width(j.spans[k].shape) {
      SourceRoundTrip(fold, sources[k], j.spans[k].shape, j.spans[k].nullable, rows[k]);
    }
  }

  /** Splitting the fetched row by the spans that expanded the fields returns every source's row, and
      nothing exactly for the unmatched ones: a matched row of NULLs is still a row. */
  lemma JoinedRoundTrip(fold: char -> string, j: Joined, sources: seq<Source>, rows: seq<Option<seq<Raw>>>, i: nat)
    requires Tiled(j) && Holdable(fold, j, sources, rows) && i < |rows|
    ensures |EncodeRow(j.spans, rows)| == |j.fields|
    ensures j.spans[i].offset + Width(j.spans[i].shape) <= |EncodeRow(j.spans, rows)|
    ensures MaterializeSpan(j.spans[i], EncodeRow(j.spans, rows)) == rows[i]
  {
    HoldableFits(fold, j, sources, rows);
    WholeLength(j, rows);
    SpanAt(j, rows, i);
    SpanRoundTrip(fold, sources[i], j.spans[i], rows[i], EncodeRow(j.spans, rows));
  }

  lemma WholeLength(j: Joined, rows: seq<Option<seq<Raw>>>)
    requires Tiled(j) && Fits(j.spans, rows)
    ensures |EncodeRow(j.spans, rows)| == |j.fields|
  {
    EncodedLength(j.spans, rows, |j.spans|);
    FieldsLength(j.spans, |j.spans|);
  }

  lemma SpanAt(j: Joined, rows: seq<Option<seq<Raw>>>, i: nat)
    requires Tiled(j) && Fits(j.spans, rows) && i < |rows|
    ensures
      var span, whole := j.spans[i], EncodeRow(j.spans, rows);
      && span.offset + Width(span.shape) <= |whole|
      && whole[span.offset..span.offset + Width(span.shape)] == EncodeSource(span.shape, rows[i])
  {
    EncodedSlice(j.spans, rows, i);
  }

  lemma SpanRoundTrip(fold: char -> string, source: Source, span: Span, row: Option<seq<Raw>>, whole: seq<Raw>)
    requires Describes(fold, span.shape, source)
    requires (row.None? ==> span.nullable) && (row.Some? ==> Conforms(source, row.value))
    requires span.offset + Width(span.shape) <= |whole|
    requires whole[span.offset..span.offset + Width(span.shape)] == EncodeSource(span.shape, row)
    ensures MaterializeSpan(span, whole) == row
  {
    SourceRoundTrip(fold, source, span.shape, span.nullable, row);
    SpanReads(span, whole, EncodeSource(span.shape, row));
  }

  lemma SpanReads(span: Span, whole: seq<Raw>, part: seq<Raw>)
    requires span.offset + Width(span.shape) <= |whole|
    requires whole[span.offset..span.offset + Width(span.shape)] == part
    ensures MaterializeSpan(span, whole) == MaterializeSource(span.shape, span.nullable, part)
  {
  }
}
