/** A compiled blueprint never leaves its own nodes. */
module Closure {
  import opened Wrappers
  import opened Names
  import opened Channels
  import opened Graphs
  import opened SuperSteps
  import opened Checkpoints
  import opened Runs
  import opened Meanings
  import opened Blueprints
  import opened Recovery

  /** The entry is a node and no edge leads out of the graph. */
  ghost predicate Closed(g: Graph) {
    && g.entry in g.nodes
    && forall n, s: State, t | t in g.Targets(n, s) :: g.Knows(t)
  }

  lemma {:induction false} TakenKnown(known: set<string>, group: seq<EdgeDef>, status: Option<Status>)
    requires forall e | e in group :: KnownTarget(known, e)
    ensures forall t | t in TargetsTaken(group, status) :: t == END || t in known
  {
    if group != [] {
      assert group[|group| - 1] in group;
      TakenKnown(known, group[..|group| - 1], status);
    }
  }

  lemma CompiledClosed(def: BlueprintDef, g: Graph)
    requires Accepts(def) && Compiled(def, g)
    ensures Closed(g)
  {
    forall n, s: State, t | t in g.Targets(n, s) ensures g.Knows(t) {
      assert g.Targets(n, s) == Successors(def.edges, n, s.status);
      TakenKnown(def.nodes.Keys, EdgesFrom(def.edges, n), s.status);
    }
  }

  lemma {:induction false} RoutesStayInside(g: Graph, step: nat, ran: seq<Ran>, s: State)
    requires Closed(g)
    ensures RouteFrom(g, step, ran, s).next.Success?
    ensures AllKnown(g, RouteFrom(g, step, ran, s).next.value)
  {
    if ran != [] {
      RoutesStayInside(g, step, ran[1..], s);
      assert forall t | t in g.Targets(ran[0].name, s) :: g.Knows(t);
    }
  }

  lemma {:induction false} MeaningStaysInside(g: Graph, budget: nat, p: Position)
    requires Closed(g) && AllKnown(g, p.frontier)
    ensures !Meaning(g, budget, p).Misses? && !Meaning(g, budget, p).Strays?
    decreases budget - p.step
  {
    hide RouteFrom, Closed;
    if p.step < budget && p.frontier != [] {
      MeaningSettles(g, budget, p);
      match Settle(g, p.frontier, p.state)
      case Missing(_) =>
      case Culprits(_) =>
      case Merged(stepped) =>
        RoutesStayInside(g, p.step, stepped.ran, stepped.state);
        var next := RouteFrom(g, p.step, stepped.ran, stepped.state).next.value;
        MeaningStaysInside(g, budget, At(p.step + 1, next, stepped.state));
    }
  }

  /** Whatever happens to a run of a compiled blueprint, it never meets an unknown node and no
      edge ever leads to one. */
  lemma CompiledNeverStrays(def: BlueprintDef, g: Graph, cfg: Config, script: Script, task: string)
    requires Accepts(def) && Compiled(def, g)
    ensures var outcome := RunOf(g, cfg, script, Fresh(task)).outcome;
      outcome.Failure? ==> !outcome.error.RoutedNowhere? && !(outcome.error.StepFailed? && outcome.error.error.UnknownNode?)
  {
    hide Loop, Meaning;
    if cfg.maxSteps > 0 {
      CompiledClosed(def, g);
      assert AllKnown(g, Canonical([g.entry]));
      MeaningStaysInside(g, cfg.maxSteps, Origin(g, task));
      LoopTells(g, cfg, script, 0, [g.entry], New(task));
    }
  }

  /** Nor does a resumed one, after any chain of interrupted sessions. */
  lemma ResumedNeverStrays(def: BlueprintDef, g: Graph, cfg: Config, script: Script, task: string, cp: Checkpoint)
    requires Accepts(def) && Compiled(def, g) && OnCourse(g, cfg, task, cp)
    ensures var outcome := RunOf(g, cfg, script, Resume(cp)).outcome;
      outcome.Failure? ==> !outcome.error.RoutedNowhere? && !(outcome.error.StepFailed? && outcome.error.error.UnknownNode?)
  {
    hide RunOf, Meaning, OnCourse, Compiled, Accepts;
    CompiledClosed(def, g);
    assert AllKnown(g, Canonical([g.entry]));
    hide Closed, AllKnown, Canonical;
    MeaningStaysInside(g, cfg.maxSteps, Origin(g, task));
    ResumedTells(g, cfg, task, cp, script);
  }
}
