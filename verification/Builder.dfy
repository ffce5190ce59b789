/** Building and validating a graph. */
module Builders {
  import opened Wrappers
  import opened Graphs

  datatype BuildError =
    | DuplicateNodes(names: seq<string>)
    | EdgeConflicts(names: seq<string>)
    | EntryMissing(entry: string)
    | SourceMissing(source: string)
    | TargetMissing(source: string, target: string)

  /** Every static target of `routing` is a node or END; routers are checked at run time. */
  predicate TargetsKnown(nodes: map<string, Behaviour>, routing: Routing) {
    routing.Static? ==> forall t | t in routing.targets :: t == END || t in nodes
  }

  class GraphBuilder {
    const name: string
    const entry: string
    var nodes: map<string, Behaviour>
    var edges: map<string, Routing>
    var duplicateNodes: seq<string>
    var edgeConflicts: seq<string>

    constructor (name: string, entry: string)
      ensures this.name == name && this.entry == entry
      ensures nodes == map[] && edges == map[] && duplicateNodes == [] && edgeConflicts == []
    {
      this.name, this.entry := name, entry;
      nodes, edges, duplicateNodes, edgeConflicts := map[], map[], [], [];
    }

    /** Adds a node; a name used before is remembered as a duplicate. */
    method Node(id: string, behaviour: Behaviour)
      modifies this
      ensures nodes == old(nodes)[id := behaviour]
      ensures duplicateNodes == old(duplicateNodes) + if id in old(nodes) then [id] else []
      ensures edges == old(edges) && edgeConflicts == old(edgeConflicts)
    {
      if id in nodes {
        duplicateNodes := duplicateNodes + [id];
      }
      nodes := nodes[id := behaviour];
    }

    /** Adds an unconditional edge: a second one from the same source fans out, one beside a
        router is a conflict. */
    method Edge(source: string, target: string)
      modifies this
      ensures source !in old(edges) ==> edges == old(edges)[source := Static([target])]
      ensures source in old(edges) && old(edges)[source].Static? ==>
        edges == old(edges)[source := Static(old(edges)[source].targets + [target])]
      ensures source in old(edges) && old(edges)[source].Conditional? ==> edges == old(edges)
      ensures edgeConflicts == old(edgeConflicts) +
        if source in old(edges) && old(edges)[source].Conditional? then [source] else []
      ensures nodes == old(nodes) && duplicateNodes == old(duplicateNodes)
    {
      if source !in edges {
        edges := edges[source := Static([target])];
      } else {
        match edges[source]
        case Static(targets) => edges := edges[source := Static(targets + [target])];
        case Conditional(_) => edgeConflicts := edgeConflicts + [source];
      }
    }

    /** Adds a router, which must be the only routing out of its source. */
    method Conditionally(source: string, router: Router)
      modifies this
      ensures edges == old(edges)[source := Conditional(router)]
      ensures edgeConflicts == old(edgeConflicts) + if source in old(edges) then [source] else []
      ensures nodes == old(nodes) && duplicateNodes == old(duplicateNodes)
    {
      if source in edges {
        edgeConflicts := edgeConflicts + [source];
      }
      edges := edges[source := Conditional(router)];
    }

    ghost predicate Buildable()
      reads this
    {
      && duplicateNodes == [] && edgeConflicts == []
      && entry in nodes
      && forall source | source in edges :: source in nodes && TargetsKnown(nodes, edges[source])
    }

    /** Succeeds exactly when the graph is buildable, and then keeps what was added. */
    method Build() returns (r: Result<Graph, BuildError>)
      ensures r.Success? <==> Buildable()
      ensures r.Success? ==> r.value == Graph(name, entry, nodes, edges)
      ensures r.Failure? ==> match r.error
        case DuplicateNodes(names) => names == duplicateNodes != []
        case EdgeConflicts(names) => names == edgeConflicts != []
        case EntryMissing(id) => id == entry && id !in nodes
        case SourceMissing(source) => source in edges && source !in nodes
        case TargetMissing(source, target) =>
          source in edges && edges[source].Static? && target in edges[source].targets && target != END && target !in nodes
    {
      if duplicateNodes != [] {
        return Failure(DuplicateNodes(duplicateNodes));
      }
      if edgeConflicts != [] {
        return Failure(EdgeConflicts(edgeConflicts));
      }
      if entry !in nodes {
        return Failure(EntryMissing(entry));
      }
      var left := edges.Keys;
      while left != {}
        invariant left <= edges.Keys
        invariant forall source | source in edges.Keys - left :: source in nodes && TargetsKnown(nodes, edges[source])
        decreases left
      {
        var source :| source in left;
        if source !in nodes {
          return Failure(SourceMissing(source));
        }
        if edges[source].Static? {
          var targets := edges[source].targets;
          for i := 0 to |targets|
            invariant forall j | 0 <= j < i :: targets[j] == END || targets[j] in nodes
          {
            if targets[i] != END && targets[i] !in nodes {
              return Failure(TargetMissing(source, targets[i]));
            }
          }
        }
        left := left - {source};
      }
      return Success(Graph(name, entry, nodes, edges));
    }
  }
}
