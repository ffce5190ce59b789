/** A compiled blueprint: named nodes plus the routing out of each. */
module Graphs {
  import opened Wrappers
  import opened Channels

  /** The target that ends a path. */
  const END := "__end__"

  datatype NodeReply = Done(update: Update) | Errored(reason: string)

  /** What a node answers to a state while its token is not cancelled. */
  type Behaviour = State -> NodeReply

  type Router = State -> seq<string>

  datatype Routing = Static(targets: seq<string>) | Conditional(router: Router)

  datatype Graph = Graph(name: string, entry: string, nodes: map<string, Behaviour>, edges: map<string, Routing>) {

    predicate Knows(target: string) {
      target == END || target in nodes
    }

    /** The successors the edges out of `current` ask for. */
    function Targets(current: string, s: State): seq<string> {
      if current !in edges then [END]
      else match edges[current]
        case Static(targets) => targets
        case Conditional(router) => router(s)
    }

    /** The successors of `current`, or the first target that is no node. */
    function Route(current: string, s: State): Result<seq<string>, string> {
      match FirstUnknown(Targets(current, s))
      case Some(target) => Failure(target)
      case None => Success(Targets(current, s))
    }

    function FirstUnknown(targets: seq<string>): (r: Option<string>)
      ensures r.None? <==> forall t | t in targets :: Knows(t)
      ensures r.Some? ==> r.value in targets && !Knows(r.value)
    {
      if targets == [] then None
      else if !Knows(targets[0]) then Some(targets[0])
      else FirstUnknown(targets[1..])
    }
  }

  /** The targets that activate a node: everything but END. */
  function Live(targets: seq<string>): (r: seq<string>)
    ensures forall t :: t in r <==> t in targets && t != END
  {
    if targets == [] then []
    else if targets[0] == END then Live(targets[1..])
    else [targets[0]] + Live(targets[1..])
  }

  /** They stay in order. */
  lemma {:induction false} LiveMeans(before: seq<string>, t: string, after: seq<string>)
    ensures Live(before + [t] + after) == Live(before) + (if t == END then [] else [t]) + Live(after)
  {
    var all := before + [t] + after;
    if before == [] {
      assert all == [t] + after && all[1..] == after;
    } else {
      LiveMeans(before[1..], t, after);
      assert all[1..] == before[1..] + [t] + after;
    }
  }
}
