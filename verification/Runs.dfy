/** What one run of the executor writes, emits and returns, as a function of its script. */
module Runs {
  import opened Wrappers
  import opened Names
  import opened Channels
  import opened Graphs
  import opened SuperSteps
  import opened Checkpoints

  /** The limits a caller sets, and the blueprint label checkpoints carry. */
  datatype Config = Config(maxSteps: nat, maxRetries: nat, blueprint: string)

  /** The outside world over a whole run: each attempt, and which store writes succeed. */
  datatype Script = Script(attempt: (nat, nat) -> Attempt, saveOk: nat -> bool, statusOk: bool) {
    ghost predicate Steady() {
      forall step, k :: attempt(step, k).Steady()
    }
  }

  datatype Reason = ReachedEnd | WasCancelled | HitError | HitStepLimit

  datatype Event =
    | BlueprintStarted(blueprint: string, entry: string)
    | BlueprintResumed(blueprint: string, from: nat)
    | NodeExecuted(step: nat, node: string, status: Status, next: Option<seq<string>>, output: string)
    | SuperStepRetried(step: nat, attempt: nat, error: StepError)
    | BlueprintCompleted(steps: nat, reason: Reason)

  datatype RunError =
    | InvalidConfig
    | StepFailed(error: StepError)
    | RoutedNowhere(node: string, target: string)
    | StepLimit(limit: nat)

  datatype Run = Run(writes: seq<Write>, events: seq<Event>, outcome: Result<State, RunError>)

  function Prepend(ws: seq<Write>, es: seq<Event>, r: Run): Run {
    Run(ws + r.writes, es + r.events, r.outcome)
  }

  // ----- the attempts of one super-step -----

  /** How the attempts at a super-step ended. `Advanced` carries whether the token had tripped
      by the time the step was done; `Interrupted` discards everything the attempt produced. */
  datatype Verdict = Advanced(stepped: Stepped, cancelled: bool) | Interrupted | Exhausted(error: StepError)

  datatype Tried = Tried(retries: seq<Event>, verdict: Verdict)

  function TryUntil(g: Graph, cfg: Config, script: Script, step: nat, names: seq<string>, s: State, k: nat): Tried
    requires k <= cfg.maxRetries
    decreases cfg.maxRetries - k
  {
    var a := script.attempt(step, k);
    match Try(g, a, names, s)
    case Success(stepped) => Tried([], Advanced(stepped, a.cancelAt.Some?))
    case Failure(e) =>
      if a.cancelAt.Some? then Tried([], Interrupted)
      else if k < cfg.maxRetries then
        var retried := SuperStepRetried(step + 1, k + 1, e);
        if a.cancelBackoff then Tried([retried], Interrupted)
        else
          var rest := TryUntil(g, cfg, script, step, names, s, k + 1);
          Tried([retried] + rest.retries, rest.verdict)
      else Tried([], Exhausted(e))
  }

  // ----- routing -----

  datatype Routed = Routed(events: seq<Event>, next: Result<seq<string>, RunError>)

  function RouteFrom(g: Graph, step: nat, ran: seq<Ran>, s: State): Routed {
    if ran == [] then Routed([], Success([]))
    else
      var r := ran[0];
      match g.Route(r.name, s)
      case Failure(target) =>
        Routed([NodeExecuted(step + 1, r.name, r.status, None, r.output)], Failure(RoutedNowhere(r.name, target)))
      case Success(targets) =>
        var rest := RouteFrom(g, step, ran[1..], s);
        Routed(
          [NodeExecuted(step + 1, r.name, r.status, Some(targets), r.output)] + rest.events,
          if rest.next.Success? then Success(Live(targets) + rest.next.value) else rest.next)
  }

  // ----- the super-step loop -----

  function End(status: RunState, script: Script, steps: nat, reason: Reason, outcome: Result<State, RunError>): Run {
    Run([SetStatus(status, script.statusOk)], [BlueprintCompleted(steps, reason)], outcome)
  }

  /** The trace of a hard error: a node's failure is reported under the node's name. */
  function FailureEvents(step: nat, e: StepError): seq<Event> {
    match e
    case UnknownNode(_) => []
    case NodeFailure(node, reason) => [NodeExecuted(step + 1, node, Status.Failed, Some([]), reason)]
  }

  function Loop(g: Graph, cfg: Config, script: Script, step: nat, frontier: seq<string>, s: State): Run
    decreases cfg.maxSteps - step
  {
    if step >= cfg.maxSteps then
      End(RunState.Failed, script, cfg.maxSteps, HitStepLimit, Failure(StepLimit(cfg.maxSteps)))
    else
      var names := Canonical(frontier);
      if names == [] then End(Completed, script, step, ReachedEnd, Success(s))
      else
        var save := Save(Checkpoint(cfg.blueprint, step, names, s), script.saveOk(step));
        var tried := TryUntil(g, cfg, script, step, names, s, 0);
        Prepend([save], tried.retries, AfterAttempts(g, cfg, script, step, s, tried.verdict))
  }

  function AfterAttempts(g: Graph, cfg: Config, script: Script, step: nat, s: State, verdict: Verdict): Run
    requires step < cfg.maxSteps
    decreases cfg.maxSteps - step, 0
  {
    match verdict
    case Interrupted => End(Suspended, script, step + 1, WasCancelled, Success(s))
    case Exhausted(e) =>
      Prepend([], FailureEvents(step, e), End(RunState.Failed, script, step + 1, HitError, Failure(StepFailed(e))))
    case Advanced(stepped, cancelled) =>
      if cancelled then End(Suspended, script, step + 1, WasCancelled, Success(stepped.state))
      else
        var routed := RouteFrom(g, step, stepped.ran, stepped.state);
        match routed.next
        case Failure(e) => Prepend([], routed.events, End(RunState.Failed, script, step + 1, HitError, Failure(e)))
        case Success(next) => Prepend([], routed.events, Loop(g, cfg, script, step + 1, next, stepped.state))
  }

  datatype Start = Fresh(task: string) | Resume(checkpoint: Checkpoint)

  function Opening(g: Graph, start: Start): Event {
    match start
    case Fresh(_) => BlueprintStarted(g.name, g.entry)
    case Resume(cp) => BlueprintResumed(g.name, cp.step)
  }

  /** The super-step loop from where the run starts: the entry, or the saved position. */
  function FirstLoop(g: Graph, cfg: Config, script: Script, start: Start): Run {
    match start
    case Fresh(task) => Loop(g, cfg, script, 0, [g.entry], New(task))
    case Resume(cp) => Loop(g, cfg, script, cp.step, cp.frontier, cp.state)
  }

  /** A whole run, from the configuration check to the last event. */
  function RunOf(g: Graph, cfg: Config, script: Script, start: Start): Run {
    if cfg.maxSteps == 0 then Run([], [], Failure(InvalidConfig))
    else Prepend([], [Opening(g, start)], FirstLoop(g, cfg, script, start))
  }

  /** A run that a panic has cut short: fewer writes than it would have made, so at least the last
      one, the status, is missing; and no more events than it would have emitted. */
  ghost predicate Cut(run: Run, ws: seq<Write>, before: seq<Event>, events: seq<Event>) {
    ws < run.writes && before <= events <= before + run.events
  }

  lemma RunOfUnfolds(g: Graph, cfg: Config, script: Script, start: Start)
    requires cfg.maxSteps > 0
    ensures var run, loop := RunOf(g, cfg, script, start), FirstLoop(g, cfg, script, start);
      run.writes == loop.writes && run.events == [Opening(g, start)] + loop.events && run.outcome == loop.outcome
  {
    hide FirstLoop;
    assert [] + FirstLoop(g, cfg, script, start).writes == FirstLoop(g, cfg, script, start).writes;
  }

  /** The run's last event is a completion for `reason`. */
  ghost predicate EndsWith(run: Run, reason: Reason) {
    && run.events != []
    && run.events[|run.events| - 1].BlueprintCompleted?
    && run.events[|run.events| - 1].reason == reason
  }

  lemma LoopUnfolds(g: Graph, cfg: Config, script: Script, step: nat, frontier: seq<string>, s: State)
    requires step < cfg.maxSteps
    ensures Canonical(frontier) == [] ==>
      Loop(g, cfg, script, step, frontier, s) == End(Completed, script, step, ReachedEnd, Success(s))
    ensures Canonical(frontier) != [] ==>
      var tried := TryUntil(g, cfg, script, step, Canonical(frontier), s, 0);
      Loop(g, cfg, script, step, frontier, s) ==
        Prepend([Save(Checkpoint(cfg.blueprint, step, Canonical(frontier), s), script.saveOk(step))], tried.retries,
                AfterAttempts(g, cfg, script, step, s, tried.verdict))
  {
  }

  /** Every run writes at least its final status. */
  lemma AlwaysWrites(g: Graph, cfg: Config, script: Script, step: nat, s: State, verdict: Verdict)
    requires step < cfg.maxSteps
    ensures AfterAttempts(g, cfg, script, step, s, verdict).writes != []
  {
    hide TryUntil, RouteFrom;
  }

  lemma LoopOutOfBudget(g: Graph, cfg: Config, script: Script, step: nat, frontier: seq<string>, s: State)
    requires step >= cfg.maxSteps
    ensures Loop(g, cfg, script, step, frontier, s) ==
      End(RunState.Failed, script, cfg.maxSteps, HitStepLimit, Failure(StepLimit(cfg.maxSteps)))
  {
  }

  lemma PrependTwice(ws: seq<Write>, es: seq<Event>, ws': seq<Write>, es': seq<Event>, r: Run)
    ensures Prepend(ws, es, Prepend(ws', es', r)) == Prepend(ws + ws', es + es', r)
  {
    assert ws + (ws' + r.writes) == (ws + ws') + r.writes;
    assert es + (es' + r.events) == (es + es') + r.events;
  }
}
