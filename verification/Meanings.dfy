/** What a blueprint means: the course of its super-steps with no schedule, no retries, no
    cancellation and no store, and how every run of the executor relates to it. */
module Meanings {
  import opened Wrappers
  import opened Names
  import opened Channels
  import opened Graphs
  import opened SuperSteps
  import opened Checkpoints
  import opened Runs

  /** Where a run stands between two super-steps. */
  datatype Position = Position(step: nat, frontier: seq<string>, state: State)

  function Origin(g: Graph, task: string): Position {
    Position(0, Canonical([g.entry]), New(task))
  }

  /** The next position, when the frontier is not empty, every node answers and every route
      leads to a node. */
  function Advance(g: Graph, p: Position): (next: Option<Position>)
    ensures next.Some? ==> next.value.step == p.step + 1
  {
    if p.frontier == [] then None
    else match Settle(g, p.frontier, p.state)
      case Missing(_) => None
      case Culprits(_) => None
      case Merged(stepped) =>
        match RouteFrom(g, p.step, stepped.ran, stepped.state).next
        case Failure(_) => None
        case Success(found) => Some(Position(p.step + 1, Canonical(found), stepped.state))
  }

  /** The position after `n` more super-steps. */
  function Course(g: Graph, p: Position, n: nat): (r: Option<Position>)
    ensures r.Some? ==> r.value.step == p.step + n
  {
    if n == 0 then Some(p)
    else match Course(g, p, n - 1)
      case None => None
      case Some(q) => Advance(g, q)
  }

  /** How a blueprint ends within a step budget. */
  datatype Fate =
    | Reaches(step: nat, state: State)
    | Breaks(step: nat, culprits: set<string>)
    | Misses(step: nat, name: string)
    | Strays(step: nat, error: RunError)
    | RunsOut

  /** Why a position has no next one. */
  function Halt(g: Graph, p: Position): (fate: Fate)
    requires Advance(g, p).None?
    ensures !fate.RunsOut? && fate.step == p.step
    ensures fate.Reaches? <==> p.frontier == []
    ensures fate.Reaches? ==> fate.state == p.state
  {
    if p.frontier == [] then Reaches(p.step, p.state)
    else match Settle(g, p.frontier, p.state)
      case Missing(name) => Misses(p.step, name)
      case Culprits(nodes) => Breaks(p.step, nodes)
      case Merged(stepped) => Strays(p.step, RouteFrom(g, p.step, stepped.ran, stepped.state).next.error)
  }

  function Meaning(g: Graph, budget: nat, p: Position): Fate
    decreases budget - p.step
  {
    if p.step >= budget then RunsOut
    else match Advance(g, p)
      case Some(q) => Meaning(g, budget, q)
      case None => Halt(g, p)
  }

  lemma {:induction false} CourseFrom(g: Graph, p: Position, n: nat)
    requires n > 0
    ensures Course(g, p, n) == match Advance(g, p) case None => None case Some(q) => Course(g, q, n - 1)
  {
    hide Advance;
    if n > 1 {
      CourseFrom(g, p, n - 1);
    }
  }

  /** The fate of a run is the fate of every position on its course within the budget: this
      is what makes a snapshot as good as the beginning. */
  lemma {:induction false} MeaningOnCourse(g: Graph, budget: nat, p: Position, n: nat)
    requires Course(g, p, n).Some? && p.step + n <= budget
    ensures Meaning(g, budget, p) == Meaning(g, budget, Course(g, p, n).value)
  {
    hide Advance;
    if n > 0 {
      MeaningOnCourse(g, budget, p, n - 1);
    }
  }

  /** A blueprint reaches its end exactly when its frontier empties after fewer super-steps
      than the budget; it runs out exactly when the whole budget can be spent, even if the
      frontier is empty by then. */
  lemma {:induction false} EndsWithinBudget(g: Graph, budget: nat, p: Position, step: nat, s: State)
    requires p.step <= budget
    ensures Meaning(g, budget, p) == Reaches(step, s) <==>
      p.step <= step < budget && Course(g, p, step - p.step) == Some(Position(step, [], s))
    ensures Meaning(g, budget, p) == RunsOut <==> Course(g, p, budget - p.step).Some?
    decreases budget - p.step
  {
    hide Advance, Halt;
    if p.step < budget {
      CourseFrom(g, p, budget - p.step);
      if step > p.step {
        CourseFrom(g, p, step - p.step);
      }
      EmptyHalts(g, p);
      if Advance(g, p).Some? {
        EndsWithinBudget(g, budget, Advance(g, p).value, step, s);
      }
    }
  }

  /** The step limit counts a blueprint that is already done: one node without edges, and a budget
      of one. */
  lemma LimitBeforeCompletion(task: string)
    ensures var g := Graph("g", "a", map["a" := s => Done(FromNode("a", "", Ok))], map[]);
      && Course(g, Origin(g, task), 1).Some? && Course(g, Origin(g, task), 1).value.frontier == []
      && Meaning(g, 1, Origin(g, task)) == RunsOut
      && Meaning(g, 2, Origin(g, task)).Reaches?
  {
    var g := Graph("g", "a", map["a" := s => Done(FromNode("a", "", Ok))], map[]);
    var p := Origin(g, task);
    assert ["a"][1..] == [];
    assert p.frontier == ["a"];
    assert Failing(g, ["a"], p.state) == {};
    var stepped := Settle(g, ["a"], p.state).stepped;
    assert stepped.ran == [stepped.ran[0]] && stepped.ran[0].name == "a" && stepped.ran[1..] == [];
    assert g.Targets("a", stepped.state) == [END] && g.Route("a", stepped.state) == Success([END]);
    assert [END][1..] == [] && Live([END]) == [];
    var rest := RouteFrom(g, 0, stepped.ran[1..], stepped.state);
    assert rest.next == Success([]);
    assert RouteFrom(g, 0, stepped.ran, stepped.state).next == Success(Live([END]) + rest.next.value);
    var q := Position(1, [], stepped.state);
    assert Advance(g, p) == Some(q) && Advance(g, q).None?;
    CourseFrom(g, p, 1);
    EndsWithinBudget(g, 1, p, 1, stepped.state);
    EndsWithinBudget(g, 2, p, 1, stepped.state);
  }

  lemma EmptyHalts(g: Graph, p: Position)
    ensures p.frontier == [] ==> Advance(g, p).None?
  {
  }

  // ----- every run against the meaning -----

  function At(step: nat, frontier: seq<string>, s: State): Position {
    Position(step, Canonical(frontier), s)
  }

  /** An error is explained by the fate, or by a transient error of the last attempt. */
  ghost predicate Explains(cfg: Config, script: Script, step: nat, error: RunError, fate: Fate) {
    match error
    case StepFailed(UnknownNode(name)) => fate == Misses(step, name)
    case StepFailed(NodeFailure(node, reason)) =>
      || (fate.Breaks? && fate.step == step && node in fate.culprits)
      || script.attempt(step, cfg.maxRetries).hiccup(node) == Some(reason)
    case RoutedNowhere(_, _) => fate == Strays(step, error)
    case _ => false
  }

  /** What the last event and the outcome of a run say about the fate of the blueprint. */
  ghost predicate Tells(cfg: Config, script: Script, run: Run, fate: Fate) {
    && run.events != []
    && var last := run.events[|run.events| - 1];
    && last.BlueprintCompleted?
    && match last.reason
       case ReachedEnd => run.outcome.Success? && fate == Reaches(last.steps, run.outcome.value)
       case WasCancelled => run.outcome.Success?
       case HitStepLimit => fate == RunsOut && run.outcome == Failure(StepLimit(cfg.maxSteps))
       case HitError => run.outcome.Failure? && last.steps > 0
                        && Explains(cfg, script, last.steps - 1, run.outcome.error, fate)
  }

  lemma TellsPrepended(cfg: Config, script: Script, ws: seq<Write>, es: seq<Event>, run: Run, fate: Fate)
    requires Tells(cfg, script, run, fate)
    ensures Tells(cfg, script, Prepend(ws, es, run), fate)
  {
    var all := Prepend(ws, es, run).events;
    assert all[|all| - 1] == run.events[|run.events| - 1];
  }

  /** However many attempts it takes, an uncancelled success is the settled merge, and running
      out of retries has a culprit in the last attempt. */
  lemma {:induction false} AttemptsFaithful(g: Graph, cfg: Config, script: Script, step: nat, names: seq<string>, s: State, k: nat)
    requires k <= cfg.maxRetries
    ensures match TryUntil(g, cfg, script, step, names, s, k).verdict
            case Advanced(stepped, cancelled) => cancelled || Settle(g, names, s) == Merged(stepped)
            case Interrupted => true
            case Exhausted(e) => Blames(g, script.attempt(step, cfg.maxRetries), names, s, e)
    decreases cfg.maxRetries - k
  {
    var a := script.attempt(step, k);
    if a.cancelAt.None? {
      ScheduleIndependent(g, a, names, s);
      if Try(g, a, names, s).Failure? && k < cfg.maxRetries && !a.cancelBackoff {
        AttemptsFaithful(g, cfg, script, step, names, s, k + 1);
      }
    }
  }

  /** Failing attempts cost nothing but retries: if the first `j` attempts fail without a
      cancellation and the next one succeeds, the super-step ends exactly as it would have
      if that one had been the first. */
  lemma {:induction false} FailedAttemptsLeaveNoTrace(g: Graph, cfg: Config, script: Script, step: nat, names: seq<string>, s: State, k: nat, j: nat)
    requires k <= j <= cfg.maxRetries
    requires forall i | k <= i < j ::
      var a := script.attempt(step, i); Try(g, a, names, s).Failure? && a.cancelAt.None? && !a.cancelBackoff
    requires Try(g, script.attempt(step, j), names, s).Success? && script.attempt(step, j).cancelAt.None?
    ensures TryUntil(g, cfg, script, step, names, s, k).verdict ==
      Advanced(Try(g, script.attempt(step, j), names, s).value, false)
    ensures Settle(g, names, s) == Merged(Try(g, script.attempt(step, j), names, s).value)
    decreases j - k
  {
    hide Try, Settle;
    if k < j {
      FailedAttemptsLeaveNoTrace(g, cfg, script, step, names, s, k + 1, j);
    } else {
      ScheduleIndependent(g, script.attempt(step, j), names, s);
    }
  }

  /** Every run tells the truth about the blueprint, whatever the schedule, the cancellations,
      the transient errors and the store do. */
  lemma {:induction false} LoopTells(g: Graph, cfg: Config, script: Script, step: nat, frontier: seq<string>, s: State)
    requires step <= cfg.maxSteps
    ensures Tells(cfg, script, Loop(g, cfg, script, step, frontier, s), Meaning(g, cfg.maxSteps, At(step, frontier, s)))
    decreases cfg.maxSteps - step
  {
    var names := Canonical(frontier);
    if step < cfg.maxSteps && names != [] {
      LoopUnfolds(g, cfg, script, step, frontier, s);
      var tried := TryUntil(g, cfg, script, step, names, s, 0);
      VerdictTells(g, cfg, script, step, names, s);
      TellsPrepended(cfg, script, [Save(Checkpoint(cfg.blueprint, step, names, s), script.saveOk(step))], tried.retries,
                     AfterAttempts(g, cfg, script, step, s, tried.verdict),
                     Meaning(g, cfg.maxSteps, At(step, frontier, s)));
    }
  }

  lemma MeaningUnfolds(g: Graph, budget: nat, p: Position)
    requires p.step < budget
    ensures Meaning(g, budget, p) == match Advance(g, p) case Some(q) => Meaning(g, budget, q) case None => Halt(g, p)
  {
    hide Advance, Halt;
  }

  /** The meaning of a position with a live frontier, read off the settled super-step. */
  lemma MeaningSettles(g: Graph, budget: nat, p: Position)
    requires p.step < budget && p.frontier != []
    ensures match Settle(g, p.frontier, p.state)
            case Missing(name) => Meaning(g, budget, p) == Misses(p.step, name)
            case Culprits(nodes) => Meaning(g, budget, p) == Breaks(p.step, nodes)
            case Merged(stepped) => (
              match RouteFrom(g, p.step, stepped.ran, stepped.state).next
              case Failure(e) => Meaning(g, budget, p) == Strays(p.step, e)
              case Success(found) => Meaning(g, budget, p) == Meaning(g, budget, At(p.step + 1, found, stepped.state)))
  {
    hide RouteFrom, Settle, Meaning, Canonical;
    MeaningUnfolds(g, budget, p);
  }

  lemma ExhaustedTells(g: Graph, cfg: Config, script: Script, step: nat, names: seq<string>, s: State, e: StepError)
    requires step < cfg.maxSteps && names != []
    requires Blames(g, script.attempt(step, cfg.maxRetries), names, s, e)
    ensures Tells(cfg, script, AfterAttempts(g, cfg, script, step, s, Exhausted(e)),
                  Meaning(g, cfg.maxSteps, Position(step, names, s)))
  {
    hide RouteFrom, Meaning, Loop;
    MeaningSettles(g, cfg.maxSteps, Position(step, names, s));
  }

  lemma {:induction false} VerdictTells(g: Graph, cfg: Config, script: Script, step: nat, names: seq<string>, s: State)
    requires step < cfg.maxSteps && names != []
    ensures Tells(cfg, script, AfterAttempts(g, cfg, script, step, s, TryUntil(g, cfg, script, step, names, s, 0).verdict),
                  Meaning(g, cfg.maxSteps, Position(step, names, s)))
    decreases cfg.maxSteps - step, 0
  {
    hide TryUntil, Loop, RouteFrom, Settle, Meaning, Blames;
    var fate := Meaning(g, cfg.maxSteps, Position(step, names, s));
    AttemptsFaithful(g, cfg, script, step, names, s, 0);
    match TryUntil(g, cfg, script, step, names, s, 0).verdict
    case Interrupted =>
    case Exhausted(e) => ExhaustedTells(g, cfg, script, step, names, s, e);
    case Advanced(stepped, cancelled) =>
      if !cancelled {
        MeaningSettles(g, cfg.maxSteps, Position(step, names, s));
        var routed := RouteFrom(g, step, stepped.ran, stepped.state);
        if routed.next.Success? {
          LoopTells(g, cfg, script, step + 1, routed.next.value, stepped.state);
          TellsPrepended(cfg, script, [], routed.events, Loop(g, cfg, script, step + 1, routed.next.value, stepped.state), fate);
        } else {
          RoutingErrorKind(g, step, stepped.ran, stepped.state);
        }
      }
  }

  lemma {:induction false} RoutingErrorKind(g: Graph, step: nat, ran: seq<Ran>, s: State)
    ensures RouteFrom(g, step, ran, s).next.Failure? ==> RouteFrom(g, step, ran, s).next.error.RoutedNowhere?
  {
    if ran != [] {
      RoutingErrorKind(g, step, ran[1..], s);
    }
  }

  // ----- steady runs -----

  lemma {:induction false} SteadyAttempts(g: Graph, cfg: Config, script: Script, step: nat, names: seq<string>, s: State, k: nat)
    requires k <= cfg.maxRetries && script.Steady()
    ensures var v := TryUntil(g, cfg, script, step, names, s, k).verdict; !v.Interrupted? && (v.Advanced? ==> !v.cancelled)
    decreases cfg.maxRetries - k
  {
    assert script.attempt(step, k).Steady();
    if Try(g, script.attempt(step, k), names, s).Failure? && k < cfg.maxRetries {
      SteadyAttempts(g, cfg, script, step, names, s, k + 1);
    }
  }

  /** Without cancellations no run ends as cancelled. */
  lemma {:induction false} SteadyNeverCancelled(g: Graph, cfg: Config, script: Script, step: nat, frontier: seq<string>, s: State)
    requires script.Steady()
    ensures !EndsWith(Loop(g, cfg, script, step, frontier, s), WasCancelled)
    decreases cfg.maxSteps - step
  {
    hide TryUntil, RouteFrom, Meaning, Canonical;
    var names := Canonical(frontier);
    if step < cfg.maxSteps && names != [] {
      LoopUnfolds(g, cfg, script, step, frontier, s);
      SteadyAttempts(g, cfg, script, step, names, s, 0);
      var tried := TryUntil(g, cfg, script, step, names, s, 0);
      var run := Loop(g, cfg, script, step, frontier, s);
      var after := AfterAttempts(g, cfg, script, step, s, tried.verdict);
      if tried.verdict.Advanced? {
        var stepped := tried.verdict.stepped;
        var routed := RouteFrom(g, step, stepped.ran, stepped.state);
        if routed.next.Success? {
          var rest := Loop(g, cfg, script, step + 1, routed.next.value, stepped.state);
          SteadyNeverCancelled(g, cfg, script, step + 1, routed.next.value, stepped.state);
          LoopTells(g, cfg, script, step + 1, routed.next.value, stepped.state);
          assert after.events[|after.events| - 1] == rest.events[|rest.events| - 1];
        }
      }
      assert after.events != [];
      assert run.events[|run.events| - 1] == after.events[|after.events| - 1];
    }
  }

  /** The outcome a fate calls for, up to which of several failing nodes is named. */
  ghost predicate Fits(cfg: Config, outcome: Result<State, RunError>, fate: Fate) {
    match fate
    case Reaches(_, s) => outcome == Success(s)
    case Breaks(_, culprits) =>
      outcome.Failure? && outcome.error.StepFailed? && outcome.error.error.NodeFailure? && outcome.error.error.node in culprits
    case Misses(_, name) => outcome == Failure(StepFailed(UnknownNode(name)))
    case Strays(_, e) => outcome == Failure(e)
    case RunsOut => outcome == Failure(StepLimit(cfg.maxSteps))
  }

  /** An undisturbed run has exactly the outcome the blueprint means, for every schedule. */
  lemma SteadyLoopFits(g: Graph, cfg: Config, script: Script, step: nat, frontier: seq<string>, s: State)
    requires script.Steady() && step <= cfg.maxSteps
    ensures Fits(cfg, Loop(g, cfg, script, step, frontier, s).outcome, Meaning(g, cfg.maxSteps, At(step, frontier, s)))
  {
    hide Loop, Meaning;
    SteadyNeverCancelled(g, cfg, script, step, frontier, s);
    LoopTells(g, cfg, script, step, frontier, s);
    var run := Loop(g, cfg, script, step, frontier, s);
    var last := run.events[|run.events| - 1];
    if last.reason == HitError {
      assert script.attempt(last.steps - 1, cfg.maxRetries).Steady();
    }
  }
}
