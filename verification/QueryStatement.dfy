/** A select statement compiled from its state alone: the walk finds the definitions, the compiler
    prints them in front. */
module QueryStatement {
  import opened TextCodec
  import opened QueryAst
  import Graphs = CteGraph
  import opened QueryTemplate
  import opened QueryCompile

  // ----- what the walk sees of a state -----

  function RelationSource(r: Relation): Graphs.Source {
    match r
    case Physical(name) => Graphs.Table(name)
    case AliasOf(name, target) => Graphs.Alias(name, target)
    case CteOf(name, _, number) => Graphs.Reference(number, name)
  }

  /** The base model followed by each joined model. */
  function Sources(relation: Relation, joins: seq<Join>): seq<Graphs.Source> {
    [RelationSource(relation)] + seq(|joins|, i requires 0 <= i < |joins| => RelationSource(joins[i].relation))
  }

  function Shape(s: Select): Graphs.Select
    decreases s, 1
  {
    var scalars := ScalarShapes(s.fields);
    var predicates := PredShapes(s.predicates) + PredShapes(s.having) + OnShapes(s.joins);
    match s.source
    case Direct(relation, _) => Graphs.Plain(s.id, Sources(relation, s.joins), scalars, predicates)
    case Derived(left, _, right, _) => Graphs.Union(s.id, Shape(left), Shape(right), scalars, predicates)
  }

  function ScalarShapes(fields: seq<Field>): seq<Graphs.Select>
    decreases fields, 0
  {
    if fields == [] then [] else ScalarShapes(fields[..|fields| - 1]) + FieldShapes(fields[|fields| - 1])
  }

  function FieldShapes(field: Field): seq<Graphs.Select>
    decreases field, 0
  {
    if field.Scalar? then [Shape(field.query.select)] else []
  }

  function PredShape(p: Pred): Graphs.Predicate
    decreases p, 1
  {
    match p
    case CompareScalar(_, _, scalar) => Graphs.Predicate([Shape(scalar.select)], [])
    case MemberQuery(_, query, _) => Graphs.Predicate([Shape(query.select)], [])
    case Exists(query, _) => Graphs.Predicate([Shape(query.select)], [])
    case Compound(_, children) => Graphs.Predicate([], PredShapes(children))
    case Negated(child) => Graphs.Predicate([], [PredShape(child)])
    case _ => Graphs.Predicate([], [])
  }

  function PredShapes(ps: seq<Pred>): seq<Graphs.Predicate>
    decreases ps, 0
  {
    if ps == [] then [] else PredShapes(ps[..|ps| - 1]) + [PredShape(ps[|ps| - 1])]
  }

  function OnShapes(joins: seq<Join>): seq<Graphs.Predicate>
    decreases joins, 0
  {
    if joins == [] then [] else OnShapes(joins[..|joins| - 1]) + [OnShape(joins[|joins| - 1])]
  }

  function OnShape(join: Join): Graphs.Predicate
    decreases join, 0
  {
    PredShape(join.on)
  }

  // ----- definitions by identity -----

  /** A definition with its place in recursion: the seed its step reads, or being such a seed. */
  datatype Entry = Entry(definition: Definition, seed: Option<nat>, isSeed: bool)

  type Library = map<nat, Entry>

  function NodeOf(entry: Entry): Graphs.Definition {
    var step := entry.definition.step;
    Graphs.Definition(entry.definition.name, Shape(entry.definition.state),
                      if step.None? then None else Some(Shape(step.value)), entry.seed, entry.isSeed)
  }

  function GraphOf(library: Library, fold: string -> string): Graphs.Graph {
    Graphs.Graph(map d | d in library :: NodeOf(library[d]), fold)
  }

  function Bodies(library: Library, list: seq<nat>): seq<Definition>
    requires forall i :: 0 <= i < |list| ==> list[i] in library
  {
    seq(|list|, i requires 0 <= i < |list| => library[list[i]].definition)
  }

  /** Every reference, in the state and in the definitions, is to a definition of the library. */
  predicate Complete(library: Library, fold: string -> string, state: Select) {
    var g := GraphOf(library, fold);
    Graphs.Closed(g) && Graphs.Known(g, Graphs.Uses(Shape(state)))
  }

  /** The statement that prints this list of definitions in front of the state. */
  function Listing(library: Library, state: Select, list: seq<nat>): Query
    requires forall i :: 0 <= i < |list| ==> list[i] in library
  {
    Query(state, Bodies(library, list))
  }

  lemma {:induction false} ListedInLibrary(library: Library, fold: string -> string, state: Select, outer: set<string>, list: seq<nat>)
    requires Graphs.IsWithList(GraphOf(library, fold), Shape(state), outer, list)
    ensures forall i :: 0 <= i < |list| ==> list[i] in library
  {
    forall i | 0 <= i < |list| ensures list[i] in library {
      assert list[i] in list;
    }
  }

  /** The compiled statement is the state behind exactly the definitions it reaches, each once and after
      the ones it mentions, and filling its placeholders gives the direct rendering of that. A state
      whose definitions are in order is refused only if one of them, or the state, has no rendering. */
  method CompileStatement(d: Dialect, library: Library, fold: string -> string, nested: bool, state: Select,
                          outer: set<string>)
    returns (code: Option<Code>, ghost list: seq<nat>)
    requires Complete(library, fold, state)
    ensures code.Some? ==>
      && Graphs.IsWithList(GraphOf(library, fold), Shape(state), outer, list)
      && (forall i :: 0 <= i < |list| ==> list[i] in library)
      && Filled(code.value.sql, code.value.params) == StatementTemplate(d, nested, Listing(library, state, list))
    ensures code.None? && (exists rank :: Graphs.Acceptable(GraphOf(library, fold), Shape(state), outer, rank)) ==>
      && Graphs.IsWithList(GraphOf(library, fold), Shape(state), outer, list)
      && (forall i :: 0 <= i < |list| ==> list[i] in library)
      && StatementTemplate(d, nested, Listing(library, state, list)).None?
  {
    var found := Graphs.CollectCteDefinitions(GraphOf(library, fold), Shape(state), outer);
    list := [];
    if found.None? {
      return None, [];
    }
    list := found.value;
    ListedInLibrary(library, fold, state, outer, list);
    code := CompileQuery(d, nested, Listing(library, state, found.value));
    if code.Some? {
      EmittedFillsBack(StatementTemplate(d, nested, Listing(library, state, list)).value);
    }
  }
}
