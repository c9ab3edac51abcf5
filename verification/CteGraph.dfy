/** The common table expressions a statement reaches, in dependency order, sharing one WITH scope. */
module CteGraph {
  import opened TextCodec

  // ----- queries -----

  /** What a query may name in FROM; `name` is the spelling the reference uses. */
  datatype Source =
    | Table(name: string)
    | Alias(name: string, target: string)
    | Combined
    | Reference(definition: nat, name: string)

  /** A query scope; `id` is the identity of the state object. Predicates are listed in walk order. */
  datatype Select =
    | Plain(id: nat, sources: seq<Source>, scalars: seq<Select>, predicates: seq<Predicate>)
    | Union(id: nat, left: Select, right: Select, scalars: seq<Select>, predicates: seq<Predicate>)

  datatype Predicate = Predicate(nested: seq<Select>, children: seq<Predicate>)

  datatype Definition = Definition(
    name: string, state: Select, step: Option<Select>, seed: Option<nat>, isSeed: bool)

  /** Definitions by identity, and the case folding of names. */
  datatype Graph = Graph(definitions: map<nat, Definition>, fold: string -> string)

  /** A source and the query scope it appears in directly. */
  datatype Use = Use(source: Source, member: nat)

  function DirectUses(sources: seq<Source>, member: nat): seq<Use> {
    seq(|sources|, i requires 0 <= i < |sources| => Use(sources[i], member))
  }

  function Uses(q: Select): seq<Use>
    decreases q, 1
  {
    SourceUses(q) + SelectUses(q.scalars) + PredicateUses(q.predicates)
  }

  function SourceUses(q: Select): seq<Use>
    decreases q, 0
  {
    if q.Plain? then DirectUses(q.sources, q.id) else Uses(q.left) + Uses(q.right)
  }

  function SelectUses(qs: seq<Select>): seq<Use>
    decreases qs, 0
  {
    if qs == [] then [] else SelectUses(qs[..|qs| - 1]) + Uses(qs[|qs| - 1])
  }

  function PredicateUses(ps: seq<Predicate>): seq<Use>
    decreases ps, 0
  {
    if ps == [] then []
    else
      PredicateUses(ps[..|ps| - 1]) + SelectUses(ps[|ps| - 1].nested) + PredicateUses(ps[|ps| - 1].children)
  }

  function DefinitionUses(d: Definition): seq<Use> {
    Uses(d.state) + if d.step.None? then [] else Uses(d.step.value)
  }

  // ----- what a use asks for -----

  predicate Known(g: Graph, uses: seq<Use>) {
    forall u :: u in uses && u.source.Reference? ==> u.source.definition in g.definitions
  }

  /** Every reference names a definition of the graph. */
  predicate Closed(g: Graph) {
    forall d :: d in g.definitions ==> Known(g, DefinitionUses(g.definitions[d]))
  }

  predicate IsSeed(g: Graph, d: nat) {
    d in g.definitions && g.definitions[d].isSeed
  }

  function FoldedName(g: Graph, d: nat): string
    requires d in g.definitions
  {
    g.fold(g.definitions[d].name)
  }

  /** The uses refer to definition `d`, other than as a recursive seed. */
  predicate Mentions(g: Graph, uses: seq<Use>, d: nat) {
    d in g.definitions && !IsSeed(g, d)
    && exists u :: u in uses && u.source.Reference? && u.source.definition == d
  }

  /** The use makes the folded name visible as a source other than a definition's own. */
  predicate Shows(g: Graph, u: Use, name: string) {
    match u.source
    case Table(n) => name == g.fold(n)
    case Alias(n, target) => name == g.fold(n) || name == g.fold(target)
    case Combined => false
    case Reference(d, n) =>
      d in g.definitions && !IsSeed(g, d) && name == g.fold(n) && name != FoldedName(g, d)
  }

  /** The seed is a direct source of the very step that owns it. */
  predicate OwnStep(g: Graph, member: nat, seed: nat) {
    exists d :: d in g.definitions && g.definitions[d].step.Some?
      && g.definitions[d].step.value.id == member && g.definitions[d].seed == Some(seed)
  }

  // ----- the walk's state -----

  datatype Walk = Walk(
    definitions: seq<nat>, names: map<string, nat>, physical: set<string>,
    visiting: set<nat>, scope: Option<(nat, Option<nat>)>)

  ghost predicate Accounted(g: Graph, w: Walk, u: Use) {
    && !u.source.Combined?
    && (forall name :: Shows(g, u, name) ==> name in w.physical)
    && (u.source.Reference? && u.source.definition in g.definitions ==>
          if IsSeed(g, u.source.definition) then OwnStep(g, u.member, u.source.definition)
          else u.source.definition in w.definitions)
  }

  ghost predicate AllAccounted(g: Graph, w: Walk, uses: seq<Use>) {
    forall u :: u in uses ==> Accounted(g, w, u)
  }

  predicate ScopeOwned(g: Graph, scope: Option<(nat, Option<nat>)>) {
    scope.Some? && scope.value.1.Some? ==> OwnStep(g, scope.value.0, scope.value.1.value)
  }

  ghost predicate NamesOwned(g: Graph, w: Walk, extra: set<nat>) {
    && (forall k :: k in w.names ==>
          && w.names[k] in g.definitions && !IsSeed(g, w.names[k]) && FoldedName(g, w.names[k]) == k
          && (w.names[k] in w.definitions || w.names[k] in w.visiting + extra))
    && (forall d :: d in w.definitions || d in w.visiting + extra ==>
          d in g.definitions && FoldedName(g, d) in w.names && w.names[FoldedName(g, d)] == d)
  }

  predicate NoDuplicates(s: seq<nat>) {
    forall i, j :: 0 <= i < j < |s| ==> s[i] != s[j]
  }

  /** Every listed definition's own uses are met by what is listed before it. */
  ghost predicate InOrder(g: Graph, w: Walk) {
    forall i :: 0 <= i < |w.definitions| && w.definitions[i] in g.definitions ==>
      AllAccounted(g, w.(definitions := w.definitions[..i]), DefinitionUses(g.definitions[w.definitions[i]]))
  }

  ghost predicate Valid(g: Graph, w: Walk, extra: set<nat>) {
    && NamesOwned(g, w, extra)
    && NoDuplicates(w.definitions)
    && (forall d :: d in w.definitions ==> d !in w.visiting)
    && InOrder(g, w)
    && ScopeOwned(g, w.scope)
  }

  /** What any part of the walk may do to the state. */
  ghost predicate Grew(w: Walk, w': Walk) {
    && w.definitions <= w'.definitions
    && (forall k :: k in w.names ==> k in w'.names && w'.names[k] == w.names[k])
    && w.physical <= w'.physical
    && w.visiting == w'.visiting
    && w.scope == w'.scope
  }

  lemma GrewTwice(w: Walk, w1: Walk, w2: Walk)
    requires Grew(w, w1) && Grew(w1, w2)
    ensures Grew(w, w2)
  {
  }

  lemma StillAccounted(g: Graph, w: Walk, w': Walk, uses: seq<Use>)
    requires AllAccounted(g, w, uses)
    requires w.definitions <= w'.definitions && w.physical <= w'.physical
    ensures AllAccounted(g, w', uses)
  {
    forall u | u in uses ensures Accounted(g, w', u) {
      assert Accounted(g, w, u);
    }
  }

  // ----- reachability -----

  ghost predicate ReachesIn(g: Graph, uses: seq<Use>, d: nat, steps: nat)
    decreases steps
  {
    exists r :: Mentions(g, uses, r)
      && (r == d || (steps > 0 && ReachesIn(g, DefinitionUses(g.definitions[r]), d, steps - 1)))
  }

  ghost predicate Reaches(g: Graph, uses: seq<Use>, d: nat) {
    exists steps: nat :: ReachesIn(g, uses, d, steps)
  }

  lemma ReachesMore(g: Graph, uses: seq<Use>, more: seq<Use>, d: nat)
    requires Reaches(g, uses, d) && forall u :: u in uses ==> u in more
    ensures Reaches(g, more, d)
  {
    var steps: nat :| ReachesIn(g, uses, d, steps);
    var r :| Mentions(g, uses, r)
      && (r == d || (steps > 0 && ReachesIn(g, DefinitionUses(g.definitions[r]), d, steps - 1)));
    assert Mentions(g, more, r);
    assert ReachesIn(g, more, d, steps);
  }

  lemma ReachesThrough(g: Graph, uses: seq<Use>, r: nat, d: nat)
    requires Mentions(g, uses, r)
    requires r == d || Reaches(g, DefinitionUses(g.definitions[r]), d)
    ensures Reaches(g, uses, d)
  {
    if r == d {
      assert ReachesIn(g, uses, d, 0);
    } else {
      var steps: nat :| ReachesIn(g, DefinitionUses(g.definitions[r]), d, steps);
      assert ReachesIn(g, uses, d, steps + 1);
    }
  }

  /** Everything the walk added, it was led to by the uses. */
  ghost predicate Justified(g: Graph, w: Walk, w': Walk, uses: seq<Use>) {
    && (forall d :: d in w'.definitions ==> d in w.definitions || Reaches(g, uses, d))
    && (forall name :: name in w'.physical ==> name in w.physical || Displayed(g, uses, w'.definitions, name))
  }

  /** The name is shown by one of the uses or within one of the definitions. */
  ghost predicate Displayed(g: Graph, uses: seq<Use>, definitions: seq<nat>, name: string) {
    || (exists u :: u in uses && Shows(g, u, name))
    || (exists d, u :: d in definitions && d in g.definitions && u in DefinitionUses(g.definitions[d]) && Shows(g, u, name))
  }

  lemma JustifiedMore(g: Graph, w: Walk, w': Walk, uses: seq<Use>, more: seq<Use>)
    requires Justified(g, w, w', uses) && forall u :: u in uses ==> u in more
    ensures Justified(g, w, w', more)
  {
    forall d | d in w'.definitions && d !in w.definitions ensures Reaches(g, more, d) {
      ReachesMore(g, uses, more, d);
    }
  }

  lemma JustifiedTwice(g: Graph, w: Walk, w1: Walk, w2: Walk, uses: seq<Use>)
    requires Justified(g, w, w1, uses) && Justified(g, w1, w2, uses) && w1.definitions <= w2.definitions
    ensures Justified(g, w, w2, uses)
  {
    forall d | d in w1.definitions ensures d in w2.definitions {
    }
  }

  // ----- steps of the walk -----

  /** The walk went from `w` to `w'` for these uses and no others. */
  ghost predicate Walked(g: Graph, w: Walk, w': Walk, uses: seq<Use>) {
    Valid(g, w', {}) && Grew(w, w') && AllAccounted(g, w', uses) && Justified(g, w, w', uses)
  }

  lemma WalkedNothing(g: Graph, w: Walk)
    requires Valid(g, w, {})
    ensures Walked(g, w, w, [])
  {
  }

  lemma WalkedThen(g: Graph, w: Walk, w1: Walk, w2: Walk, a: seq<Use>, b: seq<Use>)
    requires Walked(g, w, w1, a) && Walked(g, w1, w2, b)
    ensures Walked(g, w, w2, a + b)
  {
    GrewTwice(w, w1, w2);
    StillAccounted(g, w1, w2, a);
    JustifiedMore(g, w, w1, a, a + b);
    JustifiedMore(g, w1, w2, b, a + b);
    JustifiedTwice(g, w, w1, w2, a + b);
  }

  /** The use can be met under the current recursive scope. */
  predicate Clean(g: Graph, u: Use, scope: Option<(nat, Option<nat>)>) {
    && !u.source.Combined?
    && (u.source.Reference? && IsSeed(g, u.source.definition) ==>
          scope == Some((u.member, Some(u.source.definition))))
  }

  ghost predicate AllClean(g: Graph, uses: seq<Use>, scope: Option<(nat, Option<nat>)>) {
    forall u :: u in uses ==> Clean(g, u, scope)
  }

  /** The ranked definitions: closed under what they mention and without a cycle, no two with one name,
      every seed in its own step. */
  ghost predicate Orderly(g: Graph, rank: map<nat, nat>) {
    RanksDescend(g, rank) && NamesDiffer(g, rank) && RankedClean(g, rank)
  }

  ghost predicate RanksDescend(g: Graph, rank: map<nat, nat>) {
    forall d, r :: d in rank && d in g.definitions && Mentions(g, DefinitionUses(g.definitions[d]), r) ==>
      r in rank && rank[r] < rank[d]
  }

  ghost predicate NamesDiffer(g: Graph, rank: map<nat, nat>) {
    forall d, e :: d in rank && e in rank && d in g.definitions && e in g.definitions && SameName(g, d, e) ==> d == e
  }

  ghost predicate RankedClean(g: Graph, rank: map<nat, nat>) {
    forall d :: d in rank && d in g.definitions ==> CleanDefinition(g, g.definitions[d])
  }

  ghost predicate CleanDefinition(g: Graph, definition: Definition) {
    && AllClean(g, Uses(definition.state), None)
    && (definition.step.Some? ==>
          AllClean(g, Uses(definition.step.value), Some((definition.step.value.id, definition.seed))))
  }

  predicate SameName(g: Graph, d: nat, e: nat)
    requires d in g.definitions && e in g.definitions
  {
    !IsSeed(g, d) && !IsSeed(g, e) && FoldedName(g, d) == FoldedName(g, e)
  }

  ghost predicate Below(g: Graph, rank: map<nat, nat>, uses: seq<Use>, visiting: set<nat>) {
    forall r :: Mentions(g, uses, r) ==> r in rank && forall v :: v in visiting && v in rank ==> rank[r] < rank[v]
  }

  /** Everything that has taken a name is ranked. */
  predicate Ranked(rank: map<nat, nat>, w: Walk) {
    forall k :: k in w.names ==> w.names[k] in rank
  }

  ghost predicate Walkable(g: Graph, rank: map<nat, nat>, w: Walk, uses: seq<Use>) {
    Orderly(g, rank) && Ranked(rank, w) && AllClean(g, uses, w.scope) && Below(g, rank, uses, w.visiting)
  }

  /** The walk may go into the body of `d`. */
  ghost predicate Enterable(g: Graph, rank: map<nat, nat>, w: Walk, d: nat) {
    && Orderly(g, rank) && Ranked(rank, w) && d in rank
    && forall v :: v in w.visiting && v in rank ==> rank[d] <= rank[v]
  }

  lemma {:induction false} ReachedIsRanked(g: Graph, rank: map<nat, nat>, uses: seq<Use>, d: nat, steps: nat)
    requires Orderly(g, rank) && ReachesIn(g, uses, d, steps)
    requires forall r :: Mentions(g, uses, r) ==> r in rank
    ensures d in rank
    decreases steps
  {
    var r :| Mentions(g, uses, r)
      && (r == d || (steps > 0 && ReachesIn(g, DefinitionUses(g.definitions[r]), d, steps - 1)));
    if r != d {
      ReachedIsRanked(g, rank, DefinitionUses(g.definitions[r]), d, steps - 1);
    }
  }

  /** What a walk lists or was visiting before is ranked, if its uses and earlier names are. */
  lemma StillRanked(g: Graph, rank: map<nat, nat>, w: Walk, w': Walk, done: seq<Use>)
    requires Orderly(g, rank) && Ranked(rank, w) && Valid(g, w, {}) && Walked(g, w, w', done)
    requires forall r :: Mentions(g, done, r) ==> r in rank
    ensures Ranked(rank, w')
  {
    forall k | k in w'.names ensures w'.names[k] in rank {
      var d := w'.names[k];
      if d in w.definitions || d in w.visiting {
        assert w.names[FoldedName(g, d)] == d;
      } else {
        assert d in w'.definitions && Reaches(g, done, d);
        var steps: nat :| ReachesIn(g, done, d, steps);
        ReachedIsRanked(g, rank, done, d, steps);
      }
    }
  }

  lemma FewerMentions(g: Graph, part: seq<Use>, uses: seq<Use>)
    requires forall u :: u in part ==> u in uses
    ensures forall r :: Mentions(g, part, r) ==> Mentions(g, uses, r)
  {
  }

  /** After walking some of the uses, the others can still be walked. */
  lemma WalkablePart(g: Graph, rank: map<nat, nat>, w: Walk, w': Walk, uses: seq<Use>, done: seq<Use>, part: seq<Use>)
    requires Walkable(g, rank, w, uses) && Valid(g, w, {}) && Walked(g, w, w', done)
    requires forall u :: u in done ==> u in uses
    requires forall u :: u in part ==> u in uses
    ensures Walkable(g, rank, w', part)
  {
    FewerMentions(g, part, uses);
    FewerMentions(g, done, uses);
    StillRanked(g, rank, w, w', done);
  }

  lemma WalkableFirst(g: Graph, rank: map<nat, nat>, w: Walk, uses: seq<Use>, part: seq<Use>)
    requires Walkable(g, rank, w, uses) && forall u :: u in part ==> u in uses
    ensures Walkable(g, rank, w, part)
  {
    FewerMentions(g, part, uses);
  }

  lemma KnownThree(g: Graph, a: seq<Use>, b: seq<Use>, c: seq<Use>)
    requires Known(g, a + b + c)
    ensures Known(g, a) && Known(g, b) && Known(g, c)
  {
    forall u | u in a || u in b || u in c ensures u in a + b + c {
    }
  }

  // ----- the mutable walk -----

  class DefinitionGraph {
    const graph: Graph
    var definitions: seq<nat>
    var emitted: set<nat>
    var names: map<string, nat>
    var physical: set<string>
    var visiting: set<nat>
    var scope: Option<(nat, Option<nat>)>

    ghost function State(): Walk
      reads this
    {
      Walk(definitions, names, physical, visiting, scope)
    }

    ghost predicate Ready()
      reads this
    {
      && Closed(graph) && Valid(graph, State(), {}) && visiting <= graph.definitions.Keys
      && (forall d :: d in emitted <==> d in definitions)
    }

    constructor (graph: Graph, outer: set<string>)
      requires Closed(graph)
      ensures Ready() && State() == Walk([], map[], outer, {}, None) && this.graph == graph
    {
      this.graph := graph;
      definitions, emitted, names, physical, visiting, scope := [], {}, map[], outer, {}, None;
    }

    method Collect(q: Select, ghost rank: map<nat, nat>) returns (ok: bool)
      requires Ready() && Known(graph, Uses(q))
      modifies this
      ensures ok ==> Ready() && Walked(graph, old(State()), State(), Uses(q))
      ensures Walkable(graph, rank, old(State()), Uses(q)) ==> ok
      decreases |graph.definitions.Keys - visiting|, q, 3
    {
      ghost var w, a, b, c := State(), SourceUses(q), SelectUses(q.scalars), PredicateUses(q.predicates);
      ghost var walkable := Walkable(graph, rank, w, a + b + c);
      KnownThree(graph, a, b, c);
      if walkable {
        WalkableFirst(graph, rank, w, a + b + c, a);
      }
      ok := CollectFrom(q, rank);
      if !ok {
        return;
      }
      ghost var w1 := State();
      if walkable {
        WalkablePart(graph, rank, w, w1, a + b + c, a, b);
      }
      ok := CollectScalars(q, rank);
      if !ok {
        return;
      }
      ghost var w2 := State();
      WalkedThen(graph, w, w1, w2, a, b);
      if walkable {
        WalkablePart(graph, rank, w, w2, a + b + c, a + b, c);
      }
      ok := CollectPredicates(q, rank);
      if ok {
        WalkedThen(graph, w, w2, State(), a + b, c);
      }
    }

    method CollectFrom(q: Select, ghost rank: map<nat, nat>) returns (ok: bool)
      requires Ready() && Known(graph, SourceUses(q))
      modifies this
      ensures ok ==> Ready() && Walked(graph, old(State()), State(), SourceUses(q))
      ensures Walkable(graph, rank, old(State()), SourceUses(q)) ==> ok
      decreases |graph.definitions.Keys - visiting|, q, 2
    {
      if q.Plain? {
        ok := CollectSources(q, rank);
      } else {
        ok := CollectOperands(q, rank);
      }
    }

    method CollectOperands(q: Select, ghost rank: map<nat, nat>) returns (ok: bool)
      requires q.Union? && Ready() && Known(graph, Uses(q.left) + Uses(q.right))
      modifies this
      ensures ok ==> Ready() && Walked(graph, old(State()), State(), Uses(q.left) + Uses(q.right))
      ensures Walkable(graph, rank, old(State()), Uses(q.left) + Uses(q.right)) ==> ok
      decreases |graph.definitions.Keys - visiting|, q, 0
    {
      ghost var w, a, b := State(), Uses(q.left), Uses(q.right);
      ghost var walkable := Walkable(graph, rank, w, a + b);
      if walkable {
        WalkableFirst(graph, rank, w, a + b, a);
      }
      ok := Collect(q.left, rank);
      if ok {
        ghost var w1 := State();
        if walkable {
          WalkablePart(graph, rank, w, w1, a + b, a, b);
        }
        ok := Collect(q.right, rank);
        if ok {
          WalkedThen(graph, w, w1, State(), a, b);
        }
      }
    }

    method CollectSources(q: Select, ghost rank: map<nat, nat>) returns (ok: bool)
      requires q.Plain? && Ready() && Known(graph, DirectUses(q.sources, q.id))
      modifies this
      ensures ok ==> Ready() && Walked(graph, old(State()), State(), DirectUses(q.sources, q.id))
      ensures Walkable(graph, rank, old(State()), DirectUses(q.sources, q.id)) ==> ok
      decreases |graph.definitions.Keys - visiting|, q, 0
    {
      ghost var w, uses := State(), DirectUses(q.sources, q.id);
      WalkedNothing(graph, w);
      ok := true;
      for i := 0 to |q.sources|
        invariant Ready() && Walked(graph, w, State(), uses[..i])
      {
        ghost var w1, u := State(), Use(q.sources[i], q.id);
        assert u == uses[i];
        if Walkable(graph, rank, w, uses) {
          WalkablePart(graph, rank, w, w1, uses, uses[..i], [u]);
        }
        ok := VisitSource(q.sources[i], q.id, rank);
        if !ok {
          return;
        }
        WalkedThen(graph, w, w1, State(), uses[..i], [u]);
        assert uses[..i] + [u] == uses[..i + 1];
      }
      assert uses[..|q.sources|] == uses;
    }

    method CollectScalars(q: Select, ghost rank: map<nat, nat>) returns (ok: bool)
      requires Ready() && Known(graph, SelectUses(q.scalars))
      modifies this
      ensures ok ==> Ready() && Walked(graph, old(State()), State(), SelectUses(q.scalars))
      ensures Walkable(graph, rank, old(State()), SelectUses(q.scalars)) ==> ok
      decreases |graph.definitions.Keys - visiting|, q, 1
    {
      ghost var w := State();
      WalkedNothing(graph, w);
      ok := true;
      for i := 0 to |q.scalars|
        invariant Ready() && Walked(graph, w, State(), SelectUses(q.scalars[..i]))
      {
        ghost var w1 := State();
        SelectPart(q.scalars, i);
        if Walkable(graph, rank, w, SelectUses(q.scalars)) {
          WalkablePart(graph, rank, w, w1, SelectUses(q.scalars), SelectUses(q.scalars[..i]), Uses(q.scalars[i]));
        }
        ok := Collect(q.scalars[i], rank);
        if !ok {
          return;
        }
        WalkedThen(graph, w, w1, State(), SelectUses(q.scalars[..i]), Uses(q.scalars[i]));
      }
      assert q.scalars[..|q.scalars|] == q.scalars;
    }

    method CollectPredicates(q: Select, ghost rank: map<nat, nat>) returns (ok: bool)
      requires Ready() && Known(graph, PredicateUses(q.predicates))
      modifies this
      ensures ok ==> Ready() && Walked(graph, old(State()), State(), PredicateUses(q.predicates))
      ensures Walkable(graph, rank, old(State()), PredicateUses(q.predicates)) ==> ok
      decreases |graph.definitions.Keys - visiting|, q, 2
    {
      ghost var w := State();
      WalkedNothing(graph, w);
      ok := true;
      for i := 0 to |q.predicates|
        invariant Ready() && Walked(graph, w, State(), PredicateUses(q.predicates[..i]))
      {
        ghost var w1, p := State(), q.predicates[i];
        PredicatePart(q.predicates, i);
        if Walkable(graph, rank, w, PredicateUses(q.predicates)) {
          WalkablePart(graph, rank, w, w1, PredicateUses(q.predicates), PredicateUses(q.predicates[..i]),
                       SinglePredicateUses(p));
        }
        ok := VisitPredicate(q.predicates[i], rank);
        if !ok {
          return;
        }
        WalkedThen(graph, w, w1, State(), PredicateUses(q.predicates[..i]), SinglePredicateUses(p));
      }
      assert q.predicates[..|q.predicates|] == q.predicates;
    }

    method VisitPredicate(p: Predicate, ghost rank: map<nat, nat>) returns (ok: bool)
      requires Ready() && Known(graph, SinglePredicateUses(p))
      modifies this
      ensures ok ==> Ready() && Walked(graph, old(State()), State(), SinglePredicateUses(p))
      ensures Walkable(graph, rank, old(State()), SinglePredicateUses(p)) ==> ok
      decreases |graph.definitions.Keys - visiting|, p, 2
    {
      ghost var w := State();
      if Walkable(graph, rank, w, SinglePredicateUses(p)) {
        WalkableFirst(graph, rank, w, SinglePredicateUses(p), SelectUses(p.nested));
      }
      ok := VisitNested(p, rank);
      if !ok {
        return;
      }
      ghost var w1 := State();
      if Walkable(graph, rank, w, SinglePredicateUses(p)) {
        WalkablePart(graph, rank, w, w1, SinglePredicateUses(p), SelectUses(p.nested), PredicateUses(p.children));
      }
      ok := VisitChildren(p, rank);
      if ok {
        WalkedThen(graph, w, w1, State(), SelectUses(p.nested), PredicateUses(p.children));
      }
    }

    method VisitNested(p: Predicate, ghost rank: map<nat, nat>) returns (ok: bool)
      requires Ready() && Known(graph, SelectUses(p.nested))
      modifies this
      ensures ok ==> Ready() && Walked(graph, old(State()), State(), SelectUses(p.nested))
      ensures Walkable(graph, rank, old(State()), SelectUses(p.nested)) ==> ok
      decreases |graph.definitions.Keys - visiting|, p, 0
    {
      ghost var w := State();
      WalkedNothing(graph, w);
      ok := true;
      for i := 0 to |p.nested|
        invariant Ready() && Walked(graph, w, State(), SelectUses(p.nested[..i]))
      {
        ghost var w1 := State();
        SelectPart(p.nested, i);
        if Walkable(graph, rank, w, SelectUses(p.nested)) {
          WalkablePart(graph, rank, w, w1, SelectUses(p.nested), SelectUses(p.nested[..i]), Uses(p.nested[i]));
        }
        ok := Collect(p.nested[i], rank);
        if !ok {
          return;
        }
        WalkedThen(graph, w, w1, State(), SelectUses(p.nested[..i]), Uses(p.nested[i]));
      }
      assert p.nested[..|p.nested|] == p.nested;
    }

    method VisitChildren(p: Predicate, ghost rank: map<nat, nat>) returns (ok: bool)
      requires Ready() && Known(graph, PredicateUses(p.children))
      modifies this
      ensures ok ==> Ready() && Walked(graph, old(State()), State(), PredicateUses(p.children))
      ensures Walkable(graph, rank, old(State()), PredicateUses(p.children)) ==> ok
      decreases |graph.definitions.Keys - visiting|, p, 1
    {
      ghost var w := State();
      WalkedNothing(graph, w);
      ok := true;
      for i := 0 to |p.children|
        invariant Ready() && Walked(graph, w, State(), PredicateUses(p.children[..i]))
      {
        ghost var w1, child := State(), p.children[i];
        PredicatePart(p.children, i);
        if Walkable(graph, rank, w, PredicateUses(p.children)) {
          WalkablePart(graph, rank, w, w1, PredicateUses(p.children), PredicateUses(p.children[..i]),
                       SinglePredicateUses(child));
        }
        ok := VisitPredicate(p.children[i], rank);
        if !ok {
          return;
        }
        WalkedThen(graph, w, w1, State(), PredicateUses(p.children[..i]), SinglePredicateUses(child));
      }
      assert p.children[..|p.children|] == p.children;
    }

    method VisitSource(source: Source, member: nat, ghost rank: map<nat, nat>) returns (ok: bool)
      requires Ready() && Known(graph, [Use(source, member)])
      modifies this
      ensures ok ==> Ready() && Walked(graph, old(State()), State(), [Use(source, member)])
      ensures Walkable(graph, rank, old(State()), [Use(source, member)]) ==> ok
      decreases |graph.definitions.Keys - visiting|, source, 3
    {
      ghost var w, u := State(), Use(source, member);
      assert u in [u];
      match source
      case Combined =>
        return false;
      case Table(name) =>
        physical := physical + {graph.fold(name)};
        NamesShown(graph, w, State(), u);
        return true;
      case Alias(name, target) =>
        physical := physical + {graph.fold(name), graph.fold(target)};
        NamesShown(graph, w, State(), u);
        return true;
      case Reference(definition, reference) =>
        if graph.definitions[definition].isSeed {
          ok := scope == Some((member, Some(definition)));
          if ok {
            SeedWalked(graph, w, u);
          }
        } else {
          ok := VisitReference(source, member, rank);
        }
    }

    method VisitReference(source: Source, member: nat, ghost rank: map<nat, nat>) returns (ok: bool)
      requires source.Reference? && source.definition in graph.definitions && !IsSeed(graph, source.definition)
      requires Ready()
      modifies this
      ensures ok ==> Ready() && Walked(graph, old(State()), State(), [Use(source, member)])
      ensures Walkable(graph, rank, old(State()), [Use(source, member)]) ==> ok
      decreases |graph.definitions.Keys - visiting|, source, 2
    {
      ghost var w, u := State(), Use(source, member);
      ok := TakeName(source, u, rank);
      if !ok {
        return;
      }
      ghost var w1 := State();
      ok := VisitDefinition(source.definition, u, rank);
      if ok {
        ReferenceWalked(graph, w, w1, State(), u);
      }
    }

    method TakeName(source: Source, ghost u: Use, ghost rank: map<nat, nat>) returns (ok: bool)
      requires source.Reference? && source.definition in graph.definitions && !IsSeed(graph, source.definition)
      requires Ready() && u.source == source
      modifies this
      ensures State() == old(State()).(names := names, physical := physical)
      ensures emitted == old(emitted)
      ensures ok ==> Valid(graph, State(), {source.definition})
      ensures forall k :: k in old(names) ==> k in names && names[k] == old(names)[k]
      ensures forall name :: name in physical <==> name in old(physical) || Shows(graph, u, name)
      ensures !ok ==> !Walkable(graph, rank, old(State()), [u])
      ensures ok && Walkable(graph, rank, old(State()), [u]) ==> Walkable(graph, rank, State(), [u])
    {
      ghost var w := State();
      var definition := source.definition;
      var name, reference := graph.fold(graph.definitions[definition].name), graph.fold(source.name);
      if reference != name {
        physical := physical + {reference};
      }
      if name in names && names[name] != definition {
        assert SameName(graph, names[name], definition);
        assert u in [u] && Mentions(graph, [u], definition);
        return false;
      }
      names := names[name := definition];
      NameTaken(graph, w, State(), definition);
      if Walkable(graph, rank, w, [u]) {
        assert u in [u] && Mentions(graph, [u], definition);
      }
      ok := true;
    }

    method VisitDefinition(d: nat, ghost u: Use, ghost rank: map<nat, nat>) returns (ok: bool)
      requires Closed(graph) && d in graph.definitions && !IsSeed(graph, d)
      requires u.source.Reference? && u.source.definition == d
      requires Valid(graph, State(), {d}) && visiting <= graph.definitions.Keys
      requires forall e :: e in emitted <==> e in definitions
      modifies this
      ensures ok ==> Ready() && Grew(old(State()), State()) && d in definitions
      ensures ok ==> Justified(graph, old(State()), State(), [u])
      ensures Walkable(graph, rank, old(State()), [u]) ==> ok
      decreases |graph.definitions.Keys - visiting|, u.source, 1
    {
      ghost var w := State();
      if Walkable(graph, rank, w, [u]) {
        TargetBelow(graph, rank, w, u);
      }
      if d in visiting {
        return false;
      }
      if d in emitted {
        Relisted(graph, w, u);
        return true;
      }
      ok := VisitNew(d, u, rank);
    }

    method VisitNew(d: nat, ghost u: Use, ghost rank: map<nat, nat>) returns (ok: bool)
      requires Closed(graph) && d in graph.definitions && !IsSeed(graph, d)
      requires u.source.Reference? && u.source.definition == d && d !in visiting && d !in definitions
      requires Valid(graph, State(), {d}) && visiting <= graph.definitions.Keys
      requires forall e :: e in emitted <==> e in definitions
      modifies this
      ensures ok ==> Ready() && Grew(old(State()), State()) && d in definitions
      ensures ok ==> Justified(graph, old(State()), State(), [u])
      ensures Enterable(graph, rank, old(State()), d) ==> ok
      decreases |graph.definitions.Keys - visiting|, u.source, 0
    {
      ghost var w := State();
      Open(d);
      ghost var w1 := State();
      ok := VisitBody(d, rank);
      if ok {
        Leave(d, w, w1, u);
      }
    }

    method Open(d: nat)
      requires Closed(graph) && d in graph.definitions && !IsSeed(graph, d)
      requires d !in visiting && d !in definitions
      requires Valid(graph, State(), {d}) && visiting <= graph.definitions.Keys
      requires forall e :: e in emitted <==> e in definitions
      modifies this
      ensures Ready() && State() == old(State()).(visiting := old(visiting) + {d})
      ensures |graph.definitions.Keys - visiting| < |graph.definitions.Keys - old(visiting)|
    {
      Opened(graph, State(), d);
      Shrinks(graph.definitions.Keys, visiting, d);
      visiting := visiting + {d};
    }

    method Leave(d: nat, ghost w: Walk, ghost w1: Walk, ghost u: Use)
      requires Ready() && d in graph.definitions && !IsSeed(graph, d)
      requires u.source.Reference? && u.source.definition == d && d !in w.visiting
      requires Valid(graph, w, {d}) && w1 == w.(visiting := w.visiting + {d})
      requires Walked(graph, w1, State(), DefinitionUses(graph.definitions[d]))
      modifies this
      ensures Ready() && Grew(w, State()) && d in definitions && Justified(graph, w, State(), [u])
    {
      ghost var w4 := State();
      visiting := visiting - {d};
      emitted := emitted + {d};
      definitions := definitions + [d];
      assert visiting == w.visiting;
      Listed(graph, w, w1, w4, State(), u);
    }

    method VisitBody(d: nat, ghost rank: map<nat, nat>) returns (ok: bool)
      requires Ready() && d in visiting
      modifies this
      ensures ok ==> Ready() && Walked(graph, old(State()), State(), DefinitionUses(graph.definitions[d]))
      ensures Enterable(graph, rank, old(State()), d) ==> ok
      decreases |graph.definitions.Keys - visiting|
    {
      ghost var w1 := State();
      var definition := graph.definitions[d];
      KnownParts(graph, d);
      ghost var enterable := Enterable(graph, rank, w1, d);
      if enterable {
        BodyWalkable(graph, rank, w1, d, Uses(definition.state));
      }
      ok := Collect(definition.state, rank);
      if !ok {
        return;
      }
      ghost var w2 := State();
      if enterable {
        StillEnterable(graph, rank, w1, w2, d);
      }
      if definition.step.Some? {
        ok := VisitStep(d, rank);
        if ok {
          WalkedThen(graph, w1, w2, State(), Uses(definition.state), Uses(definition.step.value));
        }
      } else {
        assert Uses(definition.state) + [] == Uses(definition.state);
      }
    }

    /** The step's own scope is the only place its seed may appear. */
    method VisitStep(d: nat, ghost rank: map<nat, nat>) returns (ok: bool)
      requires Ready() && d in visiting && graph.definitions[d].step.Some?
      requires Known(graph, Uses(graph.definitions[d].step.value))
      modifies this
      ensures ok ==> Ready() && Walked(graph, old(State()), State(), Uses(graph.definitions[d].step.value))
      ensures Enterable(graph, rank, old(State()), d) ==> ok
      decreases |graph.definitions.Keys - visiting|, graph.definitions[d].step.value, 4
    {
      ghost var w2 := State();
      var step, previous := graph.definitions[d].step.value, scope;
      scope := Some((step.id, graph.definitions[d].seed));
      ghost var w3 := State();
      Scoped(graph, w2, w3, d);
      if Enterable(graph, rank, w2, d) {
        BodyWalkable(graph, rank, w3, d, Uses(step));
      }
      ok := Collect(step, rank);
      ghost var w4 := State();
      scope := previous;
      if ok {
        ScopeRestored(graph, w2, w3, w4, State(), Uses(step));
      }
    }
  }

  lemma KnownParts(g: Graph, d: nat)
    requires Closed(g) && d in g.definitions
    ensures Known(g, Uses(g.definitions[d].state))
    ensures g.definitions[d].step.Some? ==> Known(g, Uses(g.definitions[d].step.value))
  {
    assert Known(g, DefinitionUses(g.definitions[d]));
  }

  lemma TargetBelow(g: Graph, rank: map<nat, nat>, w: Walk, u: Use)
    requires u.source.Reference? && u.source.definition in g.definitions && !IsSeed(g, u.source.definition)
    requires Walkable(g, rank, w, [u])
    ensures Enterable(g, rank, w, u.source.definition)
    ensures forall v :: v in w.visiting && v in rank ==> rank[u.source.definition] < rank[v]
  {
    assert u in [u];
    assert Mentions(g, [u], u.source.definition);
  }

  lemma Relisted(g: Graph, w: Walk, u: Use)
    requires u.source.Reference? && Valid(g, w, {u.source.definition}) && u.source.definition in w.definitions
    ensures Valid(g, w, {}) && Justified(g, w, w, [u])
  {
  }

  lemma Scoped(g: Graph, w2: Walk, w3: Walk, d: nat)
    requires Valid(g, w2, {}) && d in g.definitions && g.definitions[d].step.Some?
    requires w3 == w2.(scope := Some((g.definitions[d].step.value.id, g.definitions[d].seed)))
    ensures Valid(g, w3, {})
  {
    OwnScope(g, d);
    StillInOrder(g, w2, w3);
  }

  lemma Shrinks(keys: set<nat>, visiting: set<nat>, d: nat)
    requires d in keys && d !in visiting
    ensures |keys - (visiting + {d})| < |keys - visiting|
  {
    assert keys - visiting == (keys - (visiting + {d})) + {d};
  }

  lemma SeedWalked(g: Graph, w: Walk, u: Use)
    requires Valid(g, w, {}) && u.source.Reference? && IsSeed(g, u.source.definition)
    requires w.scope == Some((u.member, Some(u.source.definition)))
    ensures Walked(g, w, w, [u])
  {
  }

  lemma NameTaken(g: Graph, w: Walk, w1: Walk, d: nat)
    requires Valid(g, w, {}) && d in g.definitions && !IsSeed(g, d)
    requires FoldedName(g, d) in w.names ==> w.names[FoldedName(g, d)] == d
    requires w1 == w.(names := w.names[FoldedName(g, d) := d], physical := w1.physical)
    requires w.physical <= w1.physical
    ensures Valid(g, w1, {d})
  {
    StillInOrder(g, w, w1);
  }

  lemma Opened(g: Graph, w: Walk, d: nat)
    requires Valid(g, w, {d}) && d !in w.definitions
    ensures Valid(g, w.(visiting := w.visiting + {d}), {})
  {
    var w1 := w.(visiting := w.visiting + {d});
    assert w.visiting + {d} == w1.visiting + {};
    StillInOrder(g, w, w1);
  }

  lemma OwnScope(g: Graph, d: nat)
    requires d in g.definitions && g.definitions[d].step.Some?
    ensures ScopeOwned(g, Some((g.definitions[d].step.value.id, g.definitions[d].seed)))
  {
  }

  lemma StillEnterable(g: Graph, rank: map<nat, nat>, w: Walk, w': Walk, d: nat)
    requires Enterable(g, rank, w, d) && d in g.definitions && Valid(g, w, {})
    requires Walked(g, w, w', Uses(g.definitions[d].state))
    ensures Enterable(g, rank, w', d)
  {
    FewerMentions(g, Uses(g.definitions[d].state), DefinitionUses(g.definitions[d]));
    StillRanked(g, rank, w, w', Uses(g.definitions[d].state));
  }

  lemma BodyWalkable(g: Graph, rank: map<nat, nat>, w: Walk, d: nat, uses: seq<Use>)
    requires Enterable(g, rank, w, d) && d in g.definitions && d in w.visiting
    requires var definition := g.definitions[d];
      || (uses == Uses(definition.state))
      || (definition.step.Some? && uses == Uses(definition.step.value)
          && w.scope == Some((definition.step.value.id, definition.seed)))
    ensures Walkable(g, rank, w, uses)
  {
    forall r | Mentions(g, uses, r) ensures Mentions(g, DefinitionUses(g.definitions[d]), r) {
      var u :| u in uses && u.source.Reference? && u.source.definition == r;
      assert u in DefinitionUses(g.definitions[d]);
    }
  }

  /** Walking under another scope and then restoring it is a walk. */
  lemma ScopeRestored(g: Graph, w2: Walk, w3: Walk, w4: Walk, w5: Walk, uses: seq<Use>)
    requires Valid(g, w2, {}) && w3 == w2.(scope := w3.scope) && w5 == w4.(scope := w2.scope)
    requires Walked(g, w3, w4, uses)
    ensures Walked(g, w2, w5, uses)
  {
    StillInOrder(g, w4, w5);
    StillAccounted(g, w4, w5, uses);
  }

  /** A definition whose uses have been walked may be listed. */
  lemma Listed(g: Graph, w: Walk, w1: Walk, w4: Walk, w5: Walk, u: Use)
    requires u.source.Reference?
    requires var d := u.source.definition;
      && d in g.definitions && !IsSeed(g, d) && d !in w.visiting
      && w1 == w.(visiting := w.visiting + {d})
      && Walked(g, w1, w4, DefinitionUses(g.definitions[d]))
      && w5 == w4.(visiting := w.visiting, definitions := w4.definitions + [d])
    requires Valid(g, w, {u.source.definition})
    ensures Valid(g, w5, {}) && Grew(w, w5) && Justified(g, w, w5, [u])
  {
    var d := u.source.definition;
    ListedInOrder(g, w4, w5, d);
    ListedJustified(g, w1, w4, w5, u);
    assert d in w4.visiting;
    assert w5.definitions[|w4.definitions|] == d;
    forall e | e in w5.definitions ensures e in w4.definitions || e == d {
    }
  }

  lemma ListedInOrder(g: Graph, w4: Walk, w5: Walk, d: nat)
    requires InOrder(g, w4) && d in g.definitions && AllAccounted(g, w4, DefinitionUses(g.definitions[d]))
    requires w5 == w4.(visiting := w5.visiting, definitions := w4.definitions + [d])
    ensures InOrder(g, w5)
  {
    forall i | 0 <= i < |w5.definitions| && w5.definitions[i] in g.definitions
      ensures AllAccounted(g, w5.(definitions := w5.definitions[..i]), DefinitionUses(g.definitions[w5.definitions[i]]))
    {
      var before := w5.(definitions := w5.definitions[..i]);
      if i < |w4.definitions| {
        assert w5.definitions[..i] == w4.definitions[..i];
        StillAccounted(g, w4.(definitions := w4.definitions[..i]), before,
                       DefinitionUses(g.definitions[w4.definitions[i]]));
      } else {
        assert w5.definitions[..i] == w4.definitions;
        StillAccounted(g, w4, before, DefinitionUses(g.definitions[d]));
      }
    }
  }

  lemma ListedJustified(g: Graph, w1: Walk, w4: Walk, w5: Walk, u: Use)
    requires u.source.Reference? && u.source.definition in g.definitions && !IsSeed(g, u.source.definition)
    requires Justified(g, w1, w4, DefinitionUses(g.definitions[u.source.definition]))
    requires w5 == w4.(visiting := w5.visiting, definitions := w4.definitions + [u.source.definition])
    ensures Justified(g, w1, w5, [u])
  {
    var d := u.source.definition;
    assert u in [u] && Mentions(g, [u], d);
    forall e | e in w5.definitions && e !in w1.definitions ensures Reaches(g, [u], e) {
      ReachesThrough(g, [u], d, e);
    }
    assert d in w5.definitions;
    forall e | e in w4.definitions ensures e in w5.definitions {
    }
  }

  function SinglePredicateUses(p: Predicate): seq<Use> {
    SelectUses(p.nested) + PredicateUses(p.children)
  }

  lemma {:induction false} SelectPart(qs: seq<Select>, i: nat)
    requires i < |qs|
    ensures SelectUses(qs[..i + 1]) == SelectUses(qs[..i]) + Uses(qs[i])
    ensures forall u :: u in SelectUses(qs[..i + 1]) ==> u in SelectUses(qs)
  {
    assert qs[..i + 1][..i] == qs[..i];
    if i < |qs| - 1 {
      assert qs[..|qs| - 1][..i + 1] == qs[..i + 1];
      SelectPart(qs[..|qs| - 1], i);
    } else {
      assert qs[..i + 1] == qs;
    }
  }

  lemma {:induction false} PredicatePart(ps: seq<Predicate>, i: nat)
    requires i < |ps|
    ensures PredicateUses(ps[..i + 1]) == PredicateUses(ps[..i]) + SinglePredicateUses(ps[i])
    ensures forall u :: u in PredicateUses(ps[..i + 1]) ==> u in PredicateUses(ps)
  {
    assert ps[..i + 1][..i] == ps[..i];
    if i < |ps| - 1 {
      assert ps[..|ps| - 1][..i + 1] == ps[..i + 1];
      PredicatePart(ps[..|ps| - 1], i);
    } else {
      assert ps[..i + 1] == ps;
    }
  }

  lemma NamesShown(g: Graph, w: Walk, w': Walk, u: Use)
    requires Valid(g, w, {}) && !u.source.Combined? && !u.source.Reference?
    requires w' == w.(physical := w'.physical)
    requires forall name :: name in w'.physical <==> name in w.physical || Shows(g, u, name)
    ensures Walked(g, w, w', [u])
  {
    StillInOrder(g, w, w');
  }

  lemma StillInOrder(g: Graph, w: Walk, w': Walk)
    requires InOrder(g, w) && w.definitions == w'.definitions && w.physical <= w'.physical
    ensures InOrder(g, w')
  {
    forall i | 0 <= i < |w.definitions| && w.definitions[i] in g.definitions
      ensures AllAccounted(g, w'.(definitions := w.definitions[..i]), DefinitionUses(g.definitions[w.definitions[i]]))
    {
      StillAccounted(g, w.(definitions := w.definitions[..i]), w'.(definitions := w.definitions[..i]),
                     DefinitionUses(g.definitions[w.definitions[i]]));
    }
  }

  /** From the state before the source, through its name being taken, to its definition being listed. */
  lemma ReferenceWalked(g: Graph, w: Walk, w1: Walk, w2: Walk, u: Use)
    requires u.source.Reference? && u.source.definition in g.definitions && !IsSeed(g, u.source.definition)
    requires Valid(g, w2, {}) && Grew(w1, w2) && u.source.definition in w2.definitions
    requires Justified(g, w1, w2, [u])
    requires w1 == w.(names := w1.names, physical := w1.physical)
    requires forall k :: k in w.names ==> k in w1.names && w1.names[k] == w.names[k]
    requires forall name :: name in w1.physical <==> name in w.physical || Shows(g, u, name)
    ensures Walked(g, w, w2, [u])
  {
    assert u in [u];
  }

  // ----- the result -----

  ghost predicate SeedsOwned(g: Graph, uses: seq<Use>) {
    forall u :: u in uses && u.source.Reference? && IsSeed(g, u.source.definition) ==>
      OwnStep(g, u.member, u.source.definition)
  }

  /** The folded name is shown by the query, by a definition it reaches, or by the outer scope. */
  ghost predicate Visible(g: Graph, q: Select, outer: set<string>, name: string) {
    || name in outer
    || (exists u :: u in Uses(q) && Shows(g, u, name))
    || (exists d, u :: d in g.definitions && Reaches(g, Uses(q), d)
          && u in DefinitionUses(g.definitions[d]) && Shows(g, u, name))
  }

  /** Exactly the definitions the query reaches, each once and after everything it mentions, under
      names distinct from each other and from every visible source. */
  ghost predicate IsWithList(g: Graph, q: Select, outer: set<string>, list: seq<nat>) {
    && (forall d :: d in list ==> d in g.definitions)
    && NoDuplicates(list)
    && (forall d :: d in list <==> Reaches(g, Uses(q), d))
    && (forall i, e :: 0 <= i < |list| && Mentions(g, DefinitionUses(g.definitions[list[i]]), e) ==> e in list[..i])
    && (forall d, e :: d in list && e in list && SameName(g, d, e) ==> d == e)
    && (forall d :: d in list ==> !Visible(g, q, outer, FoldedName(g, d)))
    && SeedsOwned(g, Uses(q))
    && (forall d :: d in list ==> SeedsOwned(g, DefinitionUses(g.definitions[d])))
  }

  /** A walk that met every use has listed everything reachable. */
  lemma {:induction false} ReachedIsListed(g: Graph, w: Walk, uses: seq<Use>, d: nat, steps: nat)
    requires Valid(g, w, {}) && AllAccounted(g, w, uses) && ReachesIn(g, uses, d, steps)
    ensures d in w.definitions
    decreases steps
  {
    var r :| Mentions(g, uses, r)
      && (r == d || (steps > 0 && ReachesIn(g, DefinitionUses(g.definitions[r]), d, steps - 1)));
    var u :| u in uses && u.source.Reference? && u.source.definition == r;
    assert Accounted(g, w, u);
    if r != d {
      ListedAccounted(g, w, r);
      ReachedIsListed(g, w, DefinitionUses(g.definitions[r]), d, steps - 1);
    }
  }

  lemma ListedAccounted(g: Graph, w: Walk, d: nat)
    requires InOrder(g, w) && d in w.definitions && d in g.definitions
    ensures AllAccounted(g, w, DefinitionUses(g.definitions[d]))
  {
    var i :| 0 <= i < |w.definitions| && w.definitions[i] == d;
    StillAccounted(g, w.(definitions := w.definitions[..i]), w, DefinitionUses(g.definitions[d]));
  }

  lemma AccountedSeeds(g: Graph, w: Walk, uses: seq<Use>)
    requires AllAccounted(g, w, uses)
    ensures SeedsOwned(g, uses)
  {
    forall u | u in uses && u.source.Reference? && IsSeed(g, u.source.definition)
      ensures OwnStep(g, u.member, u.source.definition)
    {
      assert Accounted(g, w, u);
    }
  }

  lemma DependenciesFirst(g: Graph, w: Walk, i: nat, e: nat)
    requires InOrder(g, w) && i < |w.definitions| && w.definitions[i] in g.definitions
    requires Mentions(g, DefinitionUses(g.definitions[w.definitions[i]]), e)
    ensures e in w.definitions[..i]
  {
    var uses := DefinitionUses(g.definitions[w.definitions[i]]);
    var u :| u in uses && u.source.Reference? && u.source.definition == e;
    assert Accounted(g, w.(definitions := w.definitions[..i]), u);
  }

  lemma {:induction false} ExactlyReached(g: Graph, q: Select, outer: set<string>, w: Walk)
    requires Walked(g, Walk([], map[], outer, {}, None), w, Uses(q))
    ensures forall d :: d in w.definitions <==> Reaches(g, Uses(q), d)
  {
    forall d | Reaches(g, Uses(q), d) ensures d in w.definitions {
      var steps: nat :| ReachesIn(g, Uses(q), d, steps);
      ReachedIsListed(g, w, Uses(q), d, steps);
    }
  }

  /** The walk's table names are exactly the visible ones. */
  lemma {:induction false} PhysicalIsVisible(g: Graph, q: Select, outer: set<string>, w: Walk, name: string)
    requires Walked(g, Walk([], map[], outer, {}, None), w, Uses(q))
    ensures name in w.physical <==> Visible(g, q, outer, name)
  {
    ExactlyReached(g, q, outer, w);
    if Visible(g, q, outer, name) && name !in outer {
      if u :| u in Uses(q) && Shows(g, u, name) {
        assert Accounted(g, w, u);
      } else {
        var d, u :| d in g.definitions && Reaches(g, Uses(q), d)
          && u in DefinitionUses(g.definitions[d]) && Shows(g, u, name);
        ListedAccounted(g, w, d);
        assert Accounted(g, w, u);
      }
    }
  }

  lemma ListedOrder(g: Graph, w: Walk)
    requires Valid(g, w, {})
    ensures forall i, e ::
      0 <= i < |w.definitions| && Mentions(g, DefinitionUses(g.definitions[w.definitions[i]]), e) ==>
        e in w.definitions[..i]
  {
    forall i, e | 0 <= i < |w.definitions| && Mentions(g, DefinitionUses(g.definitions[w.definitions[i]]), e)
      ensures e in w.definitions[..i]
    {
      DependenciesFirst(g, w, i, e);
    }
  }

  lemma {:induction false} ListedApart(g: Graph, q: Select, outer: set<string>, w: Walk, d: nat)
    requires Walked(g, Walk([], map[], outer, {}, None), w, Uses(q)) && d in w.definitions
    requires forall k :: k in w.names ==> k !in w.physical
    ensures d in g.definitions && !Visible(g, q, outer, FoldedName(g, d))
    ensures SeedsOwned(g, DefinitionUses(g.definitions[d]))
  {
    PhysicalIsVisible(g, q, outer, w, FoldedName(g, d));
    ListedAccounted(g, w, d);
    AccountedSeeds(g, w, DefinitionUses(g.definitions[d]));
  }

  lemma ListedNames(g: Graph, w: Walk)
    requires Valid(g, w, {})
    ensures forall d, e :: d in w.definitions && e in w.definitions && SameName(g, d, e) ==> d == e
  {
  }

  lemma {:induction false} FinishedList(g: Graph, q: Select, outer: set<string>, w: Walk)
    requires Walked(g, Walk([], map[], outer, {}, None), w, Uses(q))
    requires forall k :: k in w.names ==> k !in w.physical
    ensures IsWithList(g, q, outer, w.definitions)
  {
    ExactlyReached(g, q, outer, w);
    AccountedSeeds(g, w, Uses(q));
    ListedOrder(g, w);
    ListedNames(g, w);
    forall d | d in w.definitions
      ensures !Visible(g, q, outer, FoldedName(g, d)) && SeedsOwned(g, DefinitionUses(g.definitions[d]))
    {
      ListedApart(g, q, outer, w, d);
    }
  }

  /** What the query reaches is acyclic, uniquely named, with seeds in their own steps, and no name is
      taken by a visible source. */
  ghost predicate Acceptable(g: Graph, q: Select, outer: set<string>, rank: map<nat, nat>) {
    && Orderly(g, rank)
    && (forall d :: Mentions(g, Uses(q), d) ==> d in rank)
    && AllClean(g, Uses(q), None)
    && (forall d :: d in g.definitions && Reaches(g, Uses(q), d) ==> !Visible(g, q, outer, FoldedName(g, d)))
  }

  lemma {:induction false} AcceptableWalk(g: Graph, q: Select, outer: set<string>, rank: map<nat, nat>)
    requires Acceptable(g, q, outer, rank)
    ensures Walkable(g, rank, Walk([], map[], outer, {}, None), Uses(q))
  {
  }

  lemma {:induction false} CollisionIsVisible(g: Graph, q: Select, outer: set<string>, w: Walk, rank: map<nat, nat>)
    requires Walked(g, Walk([], map[], outer, {}, None), w, Uses(q))
    requires w.names.Keys * w.physical != {}
    ensures !Acceptable(g, q, outer, rank)
  {
    var name :| name in w.names.Keys * w.physical;
    PhysicalIsVisible(g, q, outer, w, name);
    ExactlyReached(g, q, outer, w);
    assert w.names[name] in w.definitions;
  }

  // ----- what was accepted was acceptable -----

  predicate IsStep(g: Graph, member: nat) {
    exists d :: d in g.definitions && g.definitions[d].step.Some? && g.definitions[d].step.value.id == member
  }

  /** The scope of a recursive step occurs nowhere but in that step. */
  ghost predicate StepsApart(g: Graph, q: Select) {
    && (forall u :: u in Uses(q) ==> !IsStep(g, u.member))
    && (forall d, u :: d in g.definitions && u in Uses(g.definitions[d].state) ==> !IsStep(g, u.member))
    && (forall d, e, u ::
          d in g.definitions && g.definitions[d].step.Some? && u in Uses(g.definitions[d].step.value)
          && e in g.definitions && g.definitions[e].step.Some? && g.definitions[e].step.value.id == u.member ==>
            g.definitions[d].step.value.id == u.member && g.definitions[d].seed == g.definitions[e].seed)
  }

  /** Positions in the list. */
  ghost function Positions(list: seq<nat>): (rank: map<nat, nat>)
    requires NoDuplicates(list)
    ensures rank.Keys == set d | d in list
    ensures forall i :: 0 <= i < |list| ==> rank[list[i]] == i
  {
    map d | d in list :: PositionOf(list, d)
  }

  ghost function PositionOf(list: seq<nat>, d: nat): (i: nat)
    requires d in list
    ensures i < |list| && list[i] == d
  {
    var i :| 0 <= i < |list| && list[i] == d; i
  }

  lemma OutsideSteps(g: Graph, uses: seq<Use>)
    requires SeedsOwned(g, uses) && forall u :: u in uses ==> !IsStep(g, u.member) && !u.source.Combined?
    ensures AllClean(g, uses, None)
  {
  }

  lemma InsideStep(g: Graph, q: Select, d: nat)
    requires StepsApart(g, q) && d in g.definitions && g.definitions[d].step.Some?
    requires
      var uses := Uses(g.definitions[d].step.value);
      SeedsOwned(g, uses) && forall u :: u in uses ==> !u.source.Combined?
    ensures
      var definition := g.definitions[d];
      AllClean(g, Uses(definition.step.value), Some((definition.step.value.id, definition.seed)))
  {
  }

  lemma ListedIsClean(g: Graph, q: Select, w: Walk, d: nat)
    requires StepsApart(g, q) && d in g.definitions && AllAccounted(g, w, DefinitionUses(g.definitions[d]))
    ensures CleanDefinition(g, g.definitions[d])
  {
    var definition := g.definitions[d];
    forall u | u in Uses(definition.state) ensures u in DefinitionUses(definition) {
    }
    AccountedSeeds(g, w, Uses(definition.state));
    OutsideSteps(g, Uses(definition.state));
    if definition.step.Some? {
      forall u | u in Uses(definition.step.value) ensures u in DefinitionUses(definition) {
      }
      AccountedSeeds(g, w, Uses(definition.step.value));
      InsideStep(g, q, d);
    }
  }

  lemma EarlierPosition(list: seq<nat>, d: nat, r: nat)
    requires NoDuplicates(list) && d in list && r in list[..Positions(list)[d]]
    ensures r in Positions(list) && Positions(list)[r] < Positions(list)[d]
  {
    var i := Positions(list)[d];
    var j :| 0 <= j < i && list[..i][j] == r;
    assert list[j] == r;
  }

  lemma ListedEarlier(g: Graph, w: Walk, d: nat, r: nat)
    requires NoDuplicates(w.definitions) && InOrder(g, w) && d in w.definitions && d in g.definitions
    requires Mentions(g, DefinitionUses(g.definitions[d]), r)
    ensures r in Positions(w.definitions) && Positions(w.definitions)[r] < Positions(w.definitions)[d]
  {
    DependenciesFirst(g, w, Positions(w.definitions)[d], r);
    EarlierPosition(w.definitions, d, r);
  }

  lemma ListedIsOrderly(g: Graph, q: Select, w: Walk)
    requires Valid(g, w, {}) && StepsApart(g, q)
    ensures Orderly(g, Positions(w.definitions))
  {
    ListedDescend(g, w);
    ListedNames(g, w);
    ListedAreClean(g, q, w);
  }

  lemma ListedDescend(g: Graph, w: Walk)
    requires NoDuplicates(w.definitions) && InOrder(g, w)
    ensures RanksDescend(g, Positions(w.definitions))
  {
    var rank := Positions(w.definitions);
    forall d, r | d in rank && d in g.definitions && Mentions(g, DefinitionUses(g.definitions[d]), r)
      ensures r in rank && rank[r] < rank[d]
    {
      ListedEarlier(g, w, d, r);
    }
  }

  lemma ListedAreClean(g: Graph, q: Select, w: Walk)
    requires NoDuplicates(w.definitions) && InOrder(g, w) && StepsApart(g, q)
    ensures RankedClean(g, Positions(w.definitions))
  {
    forall d | d in Positions(w.definitions) && d in g.definitions ensures CleanDefinition(g, g.definitions[d]) {
      ListedAccounted(g, w, d);
      ListedIsClean(g, q, w, d);
    }
  }

  lemma {:induction false} AcceptedIsAcceptable(g: Graph, q: Select, outer: set<string>, w: Walk)
    requires Walked(g, Walk([], map[], outer, {}, None), w, Uses(q)) && StepsApart(g, q)
    requires IsWithList(g, q, outer, w.definitions)
    ensures exists rank :: Acceptable(g, q, outer, rank)
  {
    var rank := Positions(w.definitions);
    ListedIsOrderly(g, q, w);
    forall u | u in Uses(q) ensures !u.source.Combined? {
      assert Accounted(g, w, u);
    }
    OutsideSteps(g, Uses(q));
    forall d | Mentions(g, Uses(q), d) ensures d in rank {
      ReachesThrough(g, Uses(q), d, d);
    }
    assert Acceptable(g, q, outer, rank);
  }

  /** Succeeds only with the WITH list of the query, and does succeed on every acceptable query. When the
      scope of a recursive step is used in that step alone, it succeeds on no others. */
  method CollectCteDefinitions(graph: Graph, query: Select, outer: set<string>) returns (result: Option<seq<nat>>)
    requires Closed(graph) && Known(graph, Uses(query))
    ensures result.Some? ==> IsWithList(graph, query, outer, result.value)
    ensures (exists rank :: Acceptable(graph, query, outer, rank)) ==> result.Some?
    ensures StepsApart(graph, query) && result.Some? ==> exists rank :: Acceptable(graph, query, outer, rank)
  {
    var walk := new DefinitionGraph(graph, outer);
    ghost var rank: map<nat, nat> := map[];
    if exists r :: Acceptable(graph, query, outer, r) {
      rank :| Acceptable(graph, query, outer, rank);
      AcceptableWalk(graph, query, outer, rank);
    }
    var ok := walk.Collect(query, rank);
    if !ok {
      return None;
    }
    if walk.names.Keys * walk.physical != {} {
      CollisionIsVisible(graph, query, outer, walk.State(), rank);
      return None;
    }
    Finished(graph, query, outer, walk.State());
    if StepsApart(graph, query) {
      AcceptedIsAcceptable(graph, query, outer, walk.State());
    }
    result := Some(walk.definitions);
  }

  lemma {:induction false} Finished(g: Graph, q: Select, outer: set<string>, w: Walk)
    requires Walked(g, Walk([], map[], outer, {}, None), w, Uses(q)) && w.names.Keys * w.physical == {}
    ensures IsWithList(g, q, outer, w.definitions)
  {
    Apart(w.names, w.physical);
    FinishedList(g, q, outer, w);
  }

  lemma Apart(names: map<string, nat>, physical: set<string>)
    requires names.Keys * physical == {}
    ensures forall k :: k in names ==> k !in physical
  {
    var both := names.Keys * physical;
    forall k | k in names ensures k !in physical {
      assert k !in both;
    }
  }
}
