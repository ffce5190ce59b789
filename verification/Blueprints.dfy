/** Compiling a parsed blueprint into a graph. */
module Blueprints {
  import opened Wrappers
  import opened Channels
  import opened Graphs
  import opened Builders

  /** An edge as written; `when` restricts it to one status. */
  datatype EdgeDef = EdgeDef(source: string, target: string, when: Option<string>)

  datatype BlueprintDef = BlueprintDef(name: string, entry: string, nodes: map<string, Behaviour>, edges: seq<EdgeDef>)

  datatype CompileError =
    | UnknownSource(source: string)
    | MixedEdges(source: string)
    | UnknownTarget(source: string, target: string)
    | UnknownWhen(source: string, when: string)
    | Unbuildable(error: BuildError)

  /** `END` in any case is the sentinel; every other target is a node id, verbatim. */
  function NormalizeTarget(target: string): string {
    if |target| == 3 && target[0] in "Ee" && target[1] in "Nn" && target[2] in "Dd" then END else target
  }

  /** Exactly the eight spellings of END become the sentinel. */
  lemma EndInAnyCase(target: string)
    ensures NormalizeTarget(target) ==
      if target in ["END", "ENd", "EnD", "End", "eND", "eNd", "enD", "end"] then END else target
  {
    if |target| == 3 {
      assert target == [target[0], target[1], target[2]];
    }
  }

  function EdgesFrom(edges: seq<EdgeDef>, source: string): (r: seq<EdgeDef>)
    ensures forall e :: e in r <==> e in edges && e.source == source
  {
    if edges == [] then []
    else EdgesFrom(edges[..|edges| - 1], source) + if edges[|edges| - 1].source == source then [edges[|edges| - 1]] else []
  }

  lemma OneMoreEdge(edges: seq<EdgeDef>, e: EdgeDef, source: string)
    ensures EdgesFrom(edges + [e], source) == EdgesFrom(edges, source) + if e.source == source then [e] else []
  {
    assert (edges + [e])[..|edges|] == edges;
  }

  /** The edges out of a source, in the order they are written. */
  lemma {:induction false} EdgesFromMeans(before: seq<EdgeDef>, e: EdgeDef, after: seq<EdgeDef>, source: string)
    ensures EdgesFrom(before + [e] + after, source)
         == EdgesFrom(before, source) + (if e.source == source then [e] else []) + EdgesFrom(after, source)
  {
    hide EdgesFrom;
    if after == [] {
      OneMoreEdge(before, e, source);
      assert before + [e] + after == before + [e];
      NoEdges();
    } else {
      var init, last := after[..|after| - 1], after[|after| - 1];
      EdgesFromMeans(before, e, init, source);
      OneMoreEdge(before + [e] + init, last, source);
      OneMoreEdge(init, last, source);
      assert after == init + [last] && before + [e] + after == (before + [e] + init) + [last];
    }
  }

  lemma EdgesFromSnoc(edges: seq<EdgeDef>, i: nat, source: string)
    requires i < |edges|
    ensures EdgesFrom(edges[..i + 1], source) ==
      EdgesFrom(edges[..i], source) + if edges[i].source == source then [edges[i]] else []
  {
    assert edges[..i + 1][..i] == edges[..i];
  }

  /** Whether an edge is taken when its source ended with `status`; no status counts as success. */
  predicate Taken(e: EdgeDef, status: Option<Status>) {
    e.when.None? || e.when.value == (if status == Some(Failed) then "failure" else "success")
  }

  /** The normalised targets of the edges taken, in source order. */
  function TargetsTaken(group: seq<EdgeDef>, status: Option<Status>): seq<string> {
    if group == [] then []
    else
      var last := group[|group| - 1];
      TargetsTaken(group[..|group| - 1], status) + if Taken(last, status) then [NormalizeTarget(last.target)] else []
  }

  lemma TargetsSnoc(group: seq<EdgeDef>, i: nat, status: Option<Status>)
    requires i < |group|
    ensures TargetsTaken(group[..i + 1], status) ==
      TargetsTaken(group[..i], status) + if Taken(group[i], status) then [NormalizeTarget(group[i].target)] else []
  {
    assert group[..i + 1][..i] == group[..i];
  }

  /** Every edge adds its target in its own place: an unconditional one always, a `failure` one
      after a failed node, and a `success` one after any other. */
  lemma {:induction false} TargetsTakenMeans(before: seq<EdgeDef>, e: EdgeDef, after: seq<EdgeDef>, status: Option<Status>)
    ensures TargetsTaken(before + [e] + after, status) == TargetsTaken(before, status) + (
      if e.when == None || e.when == Some(if status == Some(Failed) then "failure" else "success")
      then [NormalizeTarget(e.target)] else []) + TargetsTaken(after, status)
  {
    hide NormalizeTarget;
    var all := before + [e] + after;
    if after == [] {
      assert all[..|all| - 1] == before;
    } else {
      TargetsTakenMeans(before, e, after[..|after| - 1], status);
      assert all[..|all| - 1] == before + [e] + after[..|after| - 1];
    }
  }

  /** What the edge list itself says comes after `node`. */
  function Successors(edges: seq<EdgeDef>, node: string, status: Option<Status>): seq<string> {
    var group := EdgesFrom(edges, node);
    if group == [] then [END] else TargetsTaken(group, status)
  }

  // ----- which blueprints are accepted -----

  predicate Conditional(e: EdgeDef) {
    e.when.Some?
  }

  predicate HasConditional(group: seq<EdgeDef>) {
    exists e | e in group :: Conditional(e)
  }

  predicate Mixed(group: seq<EdgeDef>) {
    HasConditional(group) && exists e | e in group :: !Conditional(e)
  }

  predicate KnownTarget(known: set<string>, e: EdgeDef) {
    NormalizeTarget(e.target) == END || NormalizeTarget(e.target) in known
  }

  predicate KnownWhen(e: EdgeDef) {
    e.when.None? || e.when.value in ["success", "failure"]
  }

  /** What the compiler checks of a source by itself; the targets of unconditional edges are
      left to the builder. */
  predicate Sound(known: set<string>, edges: seq<EdgeDef>, source: string) {
    var group := EdgesFrom(edges, source);
    && source in known
    && !Mixed(group)
    && (HasConditional(group) ==> forall e | e in group :: KnownTarget(known, e) && KnownWhen(e))
  }

  /** An error the compiler reports is a defect the group has. */
  ghost predicate Defect(known: set<string>, source: string, group: seq<EdgeDef>, error: CompileError) {
    match error
    case UnknownSource(s) => s == source && source !in known
    case MixedEdges(s) => s == source && Mixed(group)
    case UnknownTarget(s, target) =>
      s == source && target != END && target !in known && exists e | e in group :: NormalizeTarget(e.target) == target
    case UnknownWhen(s, when) => s == source && exists e | e in group :: e.when == Some(when) && !KnownWhen(e)
    case Unbuildable(_) => false
  }

  /** The blueprints that compile. */
  ghost predicate Accepts(def: BlueprintDef) {
    && def.entry in def.nodes
    && forall e | e in def.edges ::
         && e.source in def.nodes
         && KnownTarget(def.nodes.Keys, e) && KnownWhen(e)
         && !Mixed(EdgesFrom(def.edges, e.source))
  }

  /** The builder routes this source as its edges say. */
  ghost predicate Routed(builder: GraphBuilder, edges: seq<EdgeDef>, source: string)
    reads builder
  {
    && source in builder.edges
    && Implements(builder.edges[source], EdgesFrom(edges, source))
    && (builder.edges[source].Conditional? <==> HasConditional(EdgesFrom(edges, source)))
  }

  // ----- the compiler -----

  lemma NoEdges()
    ensures forall s :: EdgesFrom([], s) == []
  {
  }

  /** Groups the edges by source, remembering the order in which sources first appear. */
  method GroupEdges(edges: seq<EdgeDef>) returns (order: seq<string>, bySource: map<string, seq<EdgeDef>>)
    ensures forall s :: s in bySource <==> EdgesFrom(edges, s) != []
    ensures forall s | s in bySource :: bySource[s] == EdgesFrom(edges, s)
    ensures forall s :: s in order <==> s in bySource
    ensures forall i, j | 0 <= i < j < |order| :: order[i] != order[j]
  {
    order, bySource := [], map[];
    hide EdgesFrom;
    NoEdges();
    for i := 0 to |edges|
      invariant forall s :: s in bySource <==> EdgesFrom(edges[..i], s) != []
      invariant forall s | s in bySource :: bySource[s] == EdgesFrom(edges[..i], s)
      invariant forall s :: s in order <==> s in bySource
      invariant forall j, k | 0 <= j < k < |order| :: order[j] != order[k]
    {
      var e := edges[i];
      forall s ensures EdgesFrom(edges[..i + 1], s) == EdgesFrom(edges[..i], s) + if e.source == s then [e] else [] {
        EdgesFromSnoc(edges, i, s);
      }
      if e.source !in bySource {
        order := order + [e.source];
        bySource := bySource[e.source := []];
      }
      bySource := bySource[e.source := bySource[e.source] + [e]];
    }
    assert edges[..|edges|] == edges;
  }

  /** Splits a group of conditional edges into the targets for either status. */
  method SplitByStatus(source: string, group: seq<EdgeDef>, known: set<string>)
    returns (r: Result<(seq<string>, seq<string>), CompileError>)
    requires forall e | e in group :: Conditional(e)
    ensures r.Success? <==> forall e | e in group :: KnownTarget(known, e) && KnownWhen(e)
    ensures r.Success? ==> r.value.0 == TargetsTaken(group, Some(Ok)) && r.value.0 == TargetsTaken(group, None)
    ensures r.Success? ==> r.value.1 == TargetsTaken(group, Some(Failed))
    ensures r.Failure? ==> Defect(known, source, group, r.error)
  {
    var onSuccess, onFailure := [], [];
    for i := 0 to |group|
      invariant forall e | e in group[..i] :: KnownTarget(known, e) && KnownWhen(e)
      invariant onSuccess == TargetsTaken(group[..i], Some(Ok))
      invariant onSuccess == TargetsTaken(group[..i], None)
      invariant onFailure == TargetsTaken(group[..i], Some(Failed))
    {
      var e := group[i];
      assert e in group && Conditional(e);
      var target := NormalizeTarget(e.target);
      if target != END && target !in known {
        return Failure(UnknownTarget(source, target));
      }
      TargetsSnoc(group, i, Some(Ok));
      TargetsSnoc(group, i, None);
      TargetsSnoc(group, i, Some(Failed));
      if e.when.value == "success" {
        onSuccess := onSuccess + [target];
      } else if e.when.value == "failure" {
        onFailure := onFailure + [target];
      } else {
        return Failure(UnknownWhen(source, e.when.value));
      }
    }
    assert group[..|group|] == group;
    return Success((onSuccess, onFailure));
  }

  lemma StatusCases(status: Option<Status>)
    ensures status == None || status == Some(Ok) || status == Some(Failed)
  {
    if status.Some? {
      match status.value case Ok => case Failed =>
    }
  }

  /** What installing one group leaves alone. */
  twostate predicate OnlyAdded(builder: GraphBuilder, source: string)
    reads builder
  {
    && builder.nodes == old(builder.nodes) && builder.duplicateNodes == old(builder.duplicateNodes)
    && builder.edgeConflicts == old(builder.edgeConflicts)
    && builder.edges.Keys == old(builder.edges.Keys) + {source}
    && forall other | other in old(builder.edges) :: builder.edges[other] == old(builder.edges[other])
  }

  /** A routing that sends every state where the group says. */
  ghost predicate Implements(routing: Routing, group: seq<EdgeDef>) {
    match routing
    case Static(targets) => forall status :: targets == TargetsTaken(group, status)
    case Conditional(router) => forall s: State :: router(s) == TargetsTaken(group, s.status)
  }

  /** Folds a group of conditional edges into one router on the last status. */
  method AddConditional(builder: GraphBuilder, source: string, group: seq<EdgeDef>, known: set<string>)
    returns (r: Result<(), CompileError>)
    requires source !in builder.edges
    requires forall e | e in group :: Conditional(e)
    modifies builder
    ensures r.Success? <==> forall e | e in group :: KnownTarget(known, e) && KnownWhen(e)
    ensures r.Success? ==> OnlyAdded(builder, source) && builder.edges[source].Conditional?
    ensures r.Success? ==> Implements(builder.edges[source], group)
    ensures r.Failure? ==> Defect(known, source, group, r.error) && unchanged(builder)
  {
    var split := SplitByStatus(source, group, known);
    if split.Failure? {
      return Failure(split.error);
    }
    var (onSuccess, onFailure) := split.value;
    var router := (s: State) => if s.status == Some(Failed) then onFailure else onSuccess;
    builder.Conditionally(source, router);
    forall s: State ensures router(s) == TargetsTaken(group, s.status) {
      StatusCases(s.status);
    }
    return Success(());
  }

  /** Without conditions the status does not matter. */
  lemma {:induction false} StatusIrrelevant(group: seq<EdgeDef>, status: Option<Status>)
    requires forall e | e in group :: !Conditional(e)
    ensures TargetsTaken(group, status) == TargetsTaken(group, None)
  {
    if group != [] {
      assert group[|group| - 1] in group;
      StatusIrrelevant(group[..|group| - 1], status);
    }
  }

  /** Installs a group of unconditional edges as one fan-out. */
  method AddStatic(builder: GraphBuilder, source: string, group: seq<EdgeDef>)
    requires source !in builder.edges && group != []
    requires forall e | e in group :: !Conditional(e)
    modifies builder
    ensures OnlyAdded(builder, source) && builder.edges[source].Static?
    ensures Implements(builder.edges[source], group)
  {
    builder.Edge(source, NormalizeTarget(group[0].target));
    assert group[0] in group && group[..1] == [group[0]] && group[..1][..0] == [];
    for i := 1 to |group|
      invariant OnlyAdded(builder, source) && builder.edges[source].Static?
      invariant builder.edges[source].targets == TargetsTaken(group[..i], None)
    {
      assert group[i] in group;
      TargetsSnoc(group, i, None);
      builder.Edge(source, NormalizeTarget(group[i].target));
    }
    assert group[..|group|] == group;
    forall status ensures builder.edges[source].targets == TargetsTaken(group, status) {
      StatusIrrelevant(group, status);
    }
  }

  /** Checks one group's structure, then installs it as a fan-out or a router. */
  method InstallGroup(builder: GraphBuilder, source: string, edges: seq<EdgeDef>, known: set<string>)
    returns (r: Result<(), CompileError>)
    requires source !in builder.edges && EdgesFrom(edges, source) != []
    modifies builder
    ensures r.Success? ==> OnlyAdded(builder, source) && Routed(builder, edges, source) && Sound(known, edges, source)
    ensures r.Failure? ==> Defect(known, source, EdgesFrom(edges, source), r.error) && unchanged(builder)
  {
    var group := EdgesFrom(edges, source);
    if source !in known {
      return Failure(UnknownSource(source));
    }
    if Mixed(group) {
      return Failure(MixedEdges(source));
    }
    if HasConditional(group) {
      r := AddConditional(builder, source, group, known);
    } else {
      AddStatic(builder, source, group);
      r := Success(());
    }
  }

  /** Groups the edges by source and installs each group in order of first appearance. */
  method AddEdges(builder: GraphBuilder, edges: seq<EdgeDef>, known: set<string>) returns (r: Result<(), CompileError>)
    requires builder.edges == map[] && builder.edgeConflicts == []
    modifies builder
    ensures builder.nodes == old(builder.nodes) && builder.duplicateNodes == old(builder.duplicateNodes)
    ensures r.Success? ==> builder.edgeConflicts == []
    ensures r.Success? ==> forall s :: s in builder.edges <==> EdgesFrom(edges, s) != []
    ensures r.Success? ==> forall s | s in builder.edges :: Routed(builder, edges, s) && Sound(known, edges, s)
    ensures r.Failure? ==> exists source :: EdgesFrom(edges, source) != [] && Defect(known, source, EdgesFrom(edges, source), r.error)
  {
    hide EdgesFrom, Sound, Implements, Defect;
    var order, bySource := GroupEdges(edges);
    for i := 0 to |order|
      invariant builder.nodes == old(builder.nodes) && builder.duplicateNodes == old(builder.duplicateNodes)
      invariant builder.edgeConflicts == []
      invariant forall s :: s in builder.edges <==> s in order[..i]
      invariant forall s | s in builder.edges :: Routed(builder, edges, s) && Sound(known, edges, s)
    {
      var source := order[i];
      assert source !in order[..i] && order[..i + 1] == order[..i] + [source];
      r := InstallGroup(builder, source, edges, known);
      if r.Failure? {
        return;
      }
    }
    assert order[..|order|] == order;
    return Success(());
  }

  /** Compiles a blueprint. It succeeds exactly on the accepted blueprints; the graph keeps
      the nodes and routes every node, after every state, exactly where its edges say. */
  method IntoGraph(def: BlueprintDef) returns (r: Result<Graph, CompileError>)
    ensures r.Success? <==> Accepts(def)
    ensures r.Success? ==> Compiled(def, r.value)
    ensures r.Failure? && !r.error.Unbuildable? ==>
      exists source :: EdgesFrom(def.edges, source) != [] && Defect(def.nodes.Keys, source, EdgesFrom(def.edges, source), r.error)
  {
    var builder := new GraphBuilder(def.name, def.entry);
    var left := def.nodes.Keys;
    while left != {}
      invariant left <= def.nodes.Keys
      invariant builder.nodes == map id | id in def.nodes && id !in left :: def.nodes[id]
      invariant builder.duplicateNodes == [] && builder.edgeConflicts == [] && builder.edges == map[]
      decreases left
    {
      var id :| id in left;
      builder.Node(id, def.nodes[id]);
      left := left - {id};
    }
    assert builder.nodes == def.nodes;
    var added := AddEdges(builder, def.edges, def.nodes.Keys);
    if added.Failure? {
      DefectRefuses(def, added.error);
      return Failure(added.error);
    }
    var built := builder.Build();
    BuildableIffAccepted(def, builder);
    if built.Failure? {
      return Failure(Unbuildable(built.error));
    }
    RoutedCompiles(def, builder, built.value);
    return Success(built.value);
  }

  /** What a compiled graph is to its blueprint. */
  ghost predicate Compiled(def: BlueprintDef, g: Graph) {
    && g.name == def.name && g.entry == def.entry && g.nodes == def.nodes
    && forall node, s: State :: g.Targets(node, s) == Successors(def.edges, node, s.status)
  }

  lemma DefectRefuses(def: BlueprintDef, error: CompileError)
    requires exists source :: EdgesFrom(def.edges, source) != [] && Defect(def.nodes.Keys, source, EdgesFrom(def.edges, source), error)
    ensures !Accepts(def)
  {
    var source :| EdgesFrom(def.edges, source) != [] && Defect(def.nodes.Keys, source, EdgesFrom(def.edges, source), error);
    var first := EdgesFrom(def.edges, source)[0];
    assert first in EdgesFrom(def.edges, source);
  }

  /** For a sound group, the builder's check of static targets is all that is missing. */
  lemma GroupComplete(def: BlueprintDef, routing: Routing, source: string)
    requires Implements(routing, EdgesFrom(def.edges, source)) && Sound(def.nodes.Keys, def.edges, source)
    requires routing.Conditional? <==> HasConditional(EdgesFrom(def.edges, source))
    ensures TargetsKnown(def.nodes, routing) <==>
      forall e | e in EdgesFrom(def.edges, source) :: KnownTarget(def.nodes.Keys, e) && KnownWhen(e)
  {
    var group := EdgesFrom(def.edges, source);
    if routing.Static? {
      AllTaken(group);
      assert routing.targets == TargetsTaken(group, None);
      assert forall e | e in group :: !Conditional(e);
      assert forall e | e in group :: NormalizeTarget(e.target) in routing.targets;
    }
  }

  /** Once every group is installed, the builder's own checks are the rest of acceptance. */
  lemma BuildableIffAccepted(def: BlueprintDef, builder: GraphBuilder)
    requires builder.entry == def.entry && builder.nodes == def.nodes
    requires builder.duplicateNodes == [] && builder.edgeConflicts == []
    requires forall s :: s in builder.edges <==> EdgesFrom(def.edges, s) != []
    requires forall s | s in builder.edges :: Routed(builder, def.edges, s) && Sound(def.nodes.Keys, def.edges, s)
    ensures builder.Buildable() <==> Accepts(def)
  {
    hide Implements, TargetsKnown, KnownTarget, KnownWhen, HasConditional;
    forall s | s in builder.edges
      ensures TargetsKnown(def.nodes, builder.edges[s]) <==>
        forall e | e in EdgesFrom(def.edges, s) :: KnownTarget(def.nodes.Keys, e) && KnownWhen(e)
    {
      GroupComplete(def, builder.edges[s], s);
    }
    assert forall e | e in def.edges :: e in EdgesFrom(def.edges, e.source);
    forall s | s in builder.edges && Accepts(def)
      ensures forall e | e in EdgesFrom(def.edges, s) :: KnownTarget(def.nodes.Keys, e) && KnownWhen(e)
    {
    }
  }

  /** A graph whose every group is installed routes every node as the edge list says. */
  lemma RoutedCompiles(def: BlueprintDef, builder: GraphBuilder, g: Graph)
    requires forall s :: s in builder.edges <==> EdgesFrom(def.edges, s) != []
    requires forall s | s in builder.edges :: Routed(builder, def.edges, s)
    requires g == Graph(def.name, def.entry, def.nodes, builder.edges)
    ensures Compiled(def, g)
  {
    hide EdgesFrom, HasConditional;
    forall node, s: State ensures g.Targets(node, s) == Successors(def.edges, node, s.status) {
      if node in builder.edges {
        assert Implements(builder.edges[node], EdgesFrom(def.edges, node));
      }
    }
  }

  lemma {:induction false} AllTaken(group: seq<EdgeDef>)
    requires !HasConditional(group)
    ensures forall t :: t in TargetsTaken(group, None) <==> exists e | e in group :: NormalizeTarget(e.target) == t
  {
    if group != [] {
      var init, last := group[..|group| - 1], group[|group| - 1];
      assert last in group && forall e :: e in group <==> e in init || e == last;
      AllTaken(init);
    }
  }
}
