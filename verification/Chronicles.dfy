/** What a run's audit trail and outcome say about each super-step that it saved a snapshot for. */
module Chronicles {
  import opened Wrappers
  import opened Names
  import opened Channels
  import opened Graphs
  import opened SuperSteps
  import opened Checkpoints
  import opened Runs

  // ----- the attempts at a saved super-step -----

  /** The outcome of the `k`th attempt at the super-step that `cp` was saved for. */
  function Attempted(g: Graph, script: Script, cp: Checkpoint, k: nat): Result<Stepped, StepError> {
    Try(g, script.attempt(cp.step, k), cp.frontier, cp.state)
  }

  /** The `k`th attempt fails, with no cancellation during it or in the pause after it. */
  ghost predicate FailsQuietly(g: Graph, script: Script, cp: Checkpoint, k: nat) {
    var a := script.attempt(cp.step, k);
    Attempted(g, script, cp, k).Failure? && a.cancelAt.None? && !a.cancelBackoff
  }

  /** The `k`th attempt is the last one made: those before it fail quietly, and it is not
      retried, because it succeeds, is cancelled or has used up the retries. */
  ghost predicate LastAttempt(g: Graph, cfg: Config, script: Script, cp: Checkpoint, k: nat) {
    && k <= cfg.maxRetries
    && (forall i | 0 <= i < k :: FailsQuietly(g, script, cp, i))
    && (k == cfg.maxRetries || !FailsQuietly(g, script, cp, k))
  }

  /** The token trips in the pause after the `k`th attempt, which is about to be retried. */
  ghost predicate TrippedInPause(g: Graph, cfg: Config, script: Script, cp: Checkpoint, k: nat) {
    var a := script.attempt(cp.step, k);
    Attempted(g, script, cp, k).Failure? && a.cancelAt.None? && k < cfg.maxRetries && a.cancelBackoff
  }

  ghost predicate Tripped(g: Graph, cfg: Config, script: Script, cp: Checkpoint, k: nat) {
    script.attempt(cp.step, k).cancelAt.Some? || TrippedInPause(g, cfg, script, cp, k)
  }

  // ----- what is reported -----

  /** The events of one super-step. */
  datatype Report = Report(retries: seq<Event>, nodes: seq<Event>)

  function Flat(reports: seq<Report>): seq<Event> {
    if reports == [] then [] else reports[0].retries + reports[0].nodes + Flat(reports[1..])
  }

  /** One numbered retry, with its error, for each attempt from the `k`th to before the `n`th. */
  ghost predicate RetriesTold(g: Graph, script: Script, cp: Checkpoint, k: nat, n: nat, events: seq<Event>) {
    && |events| == n - k
    && forall j | k <= j < n ::
         Attempted(g, script, cp, j).Failure?
         && events[j - k] == SuperStepRetried(cp.step + 1, j + 1, Attempted(g, script, cp, j).error)
  }

  ghost predicate Leads(g: Graph, x: Ran, s: State) {
    forall t | t in g.Targets(x.name, s) :: g.Knows(t)
  }

  /** The nodes that ran, in order, with their successors; the first one that leads to a target
      that is no node, if there is one, is the last to be reported and has none. */
  ghost predicate NodesTold(g: Graph, step: nat, stepped: Stepped, m: nat, events: seq<Event>) {
    && m <= |stepped.ran| && (forall j | 0 <= j < m :: Leads(g, stepped.ran[j], stepped.state))
    && (m < |stepped.ran| ==> !Leads(g, stepped.ran[m], stepped.state))
    && |events| == (if m < |stepped.ran| then m + 1 else m)
    && forall j | 0 <= j < |events| :: events[j] == NodeTold(g, step, stepped.ran[j], stepped.state, j < m)
  }

  function NodeTold(g: Graph, step: nat, x: Ran, s: State, leads: bool): Event {
    NodeExecuted(step + 1, x.name, x.status, if leads then Some(g.Targets(x.name, s)) else None, x.output)
  }

  /** A super-step that the run went on from: it succeeded untouched by any cancellation, and
      every node that ran leads somewhere. */
  ghost predicate Passed(g: Graph, cfg: Config, script: Script, cp: Checkpoint, k: nat, report: Report) {
    && !Tripped(g, cfg, script, cp, k) && Attempted(g, script, cp, k).Success?
    && RetriesTold(g, script, cp, 0, k, report.retries)
    && var stepped := Attempted(g, script, cp, k).value; NodesTold(g, cp.step, stepped, |stepped.ran|, report.nodes)
  }

  /** The last super-step that a run entered. A cancelled one returns what its last attempt merged,
      or the state before it if that attempt failed; its nodes are not reported. A failed one
      returns the error of its last attempt, or of the first node that leads nowhere. */
  ghost predicate Final(g: Graph, cfg: Config, script: Script, cp: Checkpoint, k: nat, report: Report,
                        reason: Reason, outcome: Result<State, RunError>) {
    && RetriesTold(g, script, cp, 0, if TrippedInPause(g, cfg, script, cp, k) then k + 1 else k, report.retries)
    && match Attempted(g, script, cp, k)
       case Failure(e) => (
         if Tripped(g, cfg, script, cp, k) then reason == WasCancelled && outcome == Success(cp.state) && report.nodes == []
         else reason == HitError && outcome == Failure(StepFailed(e)) && FailureTold(cp.step, e, report.nodes))
       case Success(stepped) => (
         if Tripped(g, cfg, script, cp, k) then reason == WasCancelled && outcome == Success(stepped.state) && report.nodes == []
         else RoutedFinal(g, cfg, cp.step, stepped, report.nodes, reason, outcome))
  }

  /** A node's hard error is reported under the node's name; an unknown name is not reported. */
  ghost predicate FailureTold(step: nat, e: StepError, events: seq<Event>) {
    match e
    case UnknownNode(_) => events == []
    case NodeFailure(node, reason) => events == [NodeExecuted(step + 1, node, Status.Failed, Some([]), reason)]
  }

  ghost predicate RoutedFinal(g: Graph, cfg: Config, step: nat, stepped: Stepped, events: seq<Event>,
                              reason: Reason, outcome: Result<State, RunError>) {
    exists m: nat :: NodesTold(g, step, stepped, m, events) &&
      if m < |stepped.ran| then reason == HitError && LostAt(g, stepped.ran[m].name, stepped.state, outcome)
      else Over(cfg, stepped.state, reason, outcome)
  }

  ghost predicate LostAt(g: Graph, name: string, s: State, outcome: Result<State, RunError>) {
    && outcome.Failure? && outcome.error.RoutedNowhere? && outcome.error.node == name
    && outcome.error.target in g.Targets(name, s) && !g.Knows(outcome.error.target)
  }

  /** A run that stops between two super-steps. */
  ghost predicate Over(cfg: Config, s: State, reason: Reason, outcome: Result<State, RunError>) {
    || (reason == ReachedEnd && outcome == Success(s))
    || (reason == HitStepLimit && outcome == Failure(StepLimit(cfg.maxSteps)))
  }

  /** Super-step by super-step, what a run that started from `s` reports and returns. */
  ghost predicate Told(g: Graph, cfg: Config, script: Script, s: State, run: Run, reports: seq<Report>, reason: Reason) {
    && EndsWith(run, reason)
    && run.events[..|run.events| - 1] == Flat(reports) && |reports| == |run.writes| - 1
    && (reports == [] ==> Over(cfg, s, reason, run.outcome))
    && forall i | 0 <= i < |reports| :: StepTold(g, cfg, script, run.writes[i], reports[i], i == |reports| - 1, reason, run.outcome)
  }

  ghost predicate StepTold(g: Graph, cfg: Config, script: Script, w: Write, report: Report, last: bool,
                           reason: Reason, outcome: Result<State, RunError>) {
    w.Save? && exists k: nat :: ToldBy(g, cfg, script, w.checkpoint, k, report, last, reason, outcome)
  }

  ghost predicate ToldBy(g: Graph, cfg: Config, script: Script, cp: Checkpoint, k: nat, report: Report, last: bool,
                         reason: Reason, outcome: Result<State, RunError>) {
    && LastAttempt(g, cfg, script, cp, k)
    && if last then Final(g, cfg, script, cp, k, report, reason, outcome) else Passed(g, cfg, script, cp, k, report)
  }

  /** The last attempt is unique. */
  lemma OneLastAttempt(g: Graph, cfg: Config, script: Script, cp: Checkpoint, j: nat, k: nat)
    requires LastAttempt(g, cfg, script, cp, j) && LastAttempt(g, cfg, script, cp, k)
    ensures j == k
  {
    hide FailsQuietly;
  }

  // ----- every run tells it -----

  /** Where the attempts at a super-step stop, with which retries and verdict. */
  lemma {:induction false} AttemptsTold(g: Graph, cfg: Config, script: Script, cp: Checkpoint, k: nat) returns (last: nat)
    requires k <= cfg.maxRetries && forall i | 0 <= i < k :: FailsQuietly(g, script, cp, i)
    ensures k <= last && LastAttempt(g, cfg, script, cp, last)
    ensures var tried := TryUntil(g, cfg, script, cp.step, cp.frontier, cp.state, k);
      && RetriesTold(g, script, cp, k, if TrippedInPause(g, cfg, script, cp, last) then last + 1 else last, tried.retries)
      && tried.verdict == (
           match Attempted(g, script, cp, last)
           case Success(stepped) => Advanced(stepped, Tripped(g, cfg, script, cp, last))
           case Failure(e) => if Tripped(g, cfg, script, cp, last) then Interrupted else Exhausted(e))
    decreases cfg.maxRetries - k
  {
    hide Try;
    if k < cfg.maxRetries && FailsQuietly(g, script, cp, k) {
      last := AttemptsTold(g, cfg, script, cp, k + 1);
    } else {
      last := k;
    }
  }

  lemma NodesPrepended(g: Graph, step: nat, ran: seq<Ran>, s: State, m: nat, events: seq<Event>)
    requires ran != [] && Leads(g, ran[0], s) && NodesTold(g, step, Stepped(s, ran[1..]), m, events)
    ensures NodesTold(g, step, Stepped(s, ran), m + 1, [NodeTold(g, step, ran[0], s, true)] + events)
  {
    hide Leads, NodeTold;
  }

  lemma RouteFirst(g: Graph, step: nat, ran: seq<Ran>, s: State)
    requires ran != []
    ensures var first, rest := g.Route(ran[0].name, s), RouteFrom(g, step, ran[1..], s);
      && (first.Success? <==> Leads(g, ran[0], s))
      && RouteFrom(g, step, ran, s).events
         == [NodeTold(g, step, ran[0], s, first.Success?)] + (if first.Success? then rest.events else [])
      && (first.Failure? ==> LostAt(g, ran[0].name, s, Failure(RouteFrom(g, step, ran, s).next.error)))
      && (first.Success? ==>
            if rest.next.Success? then RouteFrom(g, step, ran, s).next.Success? else RouteFrom(g, step, ran, s).next == rest.next)
  {
  }

  lemma {:induction false} RoutesTold(g: Graph, step: nat, ran: seq<Ran>, s: State) returns (m: nat)
    ensures var routed := RouteFrom(g, step, ran, s);
      && m <= |ran| && NodesTold(g, step, Stepped(s, ran), m, routed.events)
      && (routed.next.Success? <==> m == |ran|)
      && (m < |ran| ==> LostAt(g, ran[m].name, s, Failure(routed.next.error)))
  {
    m := 0;
    if ran != [] {
      RouteFirst(g, step, ran, s);
      hide LostAt, Leads, NodeTold, RouteFrom;
      if g.Route(ran[0].name, s).Success? {
        hide NodesTold;
        m := RoutesTold(g, step, ran[1..], s);
        NodesPrepended(g, step, ran, s, m, RouteFrom(g, step, ran[1..], s).events);
        m := m + 1;
      }
    }
  }

  /** A run that tells its story after one more super-step. */
  lemma ToldPrepended(g: Graph, cfg: Config, script: Script, s: State, cp: Checkpoint, ok: bool, report: Report, k: nat,
                      run: Run, next: State, reports: seq<Report>, reason: Reason)
    requires Told(g, cfg, script, next, run, reports, reason)
    requires ToldBy(g, cfg, script, cp, k, report, reports == [], reason, run.outcome)
    ensures Told(g, cfg, script, s, Prepend([Save(cp, ok)], report.retries + report.nodes, run), [report] + reports, reason)
  {
    hide ToldBy;
    var all, events := Prepend([Save(cp, ok)], report.retries + report.nodes, run), report.retries + report.nodes;
    var told := [report] + reports;
    assert told[1..] == reports;
    assert all.events[|all.events| - 1] == run.events[|run.events| - 1];
    assert all.events[..|all.events| - 1] == events + run.events[..|run.events| - 1];
    forall i | 0 <= i < |told| ensures StepTold(g, cfg, script, all.writes[i], told[i], i == |told| - 1, reason, all.outcome) {
      if i > 0 {
        assert StepTold(g, cfg, script, run.writes[i - 1], reports[i - 1], i - 1 == |reports| - 1, reason, run.outcome);
      }
    }
  }

  /** The last super-step of a run, then its status and completion. */
  lemma ToldAtEnd(g: Graph, cfg: Config, script: Script, s: State, cp: Checkpoint, ok: bool, report: Report, k: nat,
                  status: RunState, steps: nat, reason: Reason, outcome: Result<State, RunError>)
    requires ToldBy(g, cfg, script, cp, k, report, true, reason, outcome)
    ensures Told(g, cfg, script, s, Prepend([Save(cp, ok)], report.retries + report.nodes, End(status, script, steps, reason, outcome)),
                 [report], reason)
  {
    hide ToldBy;
    var events := report.retries + report.nodes;
    var all := Prepend([Save(cp, ok)], events, End(status, script, steps, reason, outcome));
    assert all.events[..|all.events| - 1] == events == events + Flat([]);
    assert [report][1..] == [];
    assert StepTold(g, cfg, script, all.writes[0], report, true, reason, all.outcome);
  }

  lemma ToldOver(g: Graph, cfg: Config, script: Script, step: nat, frontier: seq<string>, s: State) returns (reason: Reason)
    requires step >= cfg.maxSteps || Canonical(frontier) == []
    ensures Told(g, cfg, script, s, Loop(g, cfg, script, step, frontier, s), [], reason)
  {
    hide Canonical;
    reason := if step >= cfg.maxSteps then HitStepLimit else ReachedEnd;
    var run := Loop(g, cfg, script, step, frontier, s);
    assert run.events[..0] == [];
  }

  /** What follows the attempts: the node reports, then the end of the run or its next super-step. */
  lemma AfterTold(g: Graph, cfg: Config, script: Script, cp: Checkpoint, k: nat, verdict: Verdict, retries: seq<Event>)
    returns (nodes: seq<Event>, status: RunState, reason: Reason, outcome: Result<State, RunError>, next: Option<(seq<string>, State)>)
    requires cp.step < cfg.maxSteps && LastAttempt(g, cfg, script, cp, k)
    requires RetriesTold(g, script, cp, 0, if TrippedInPause(g, cfg, script, cp, k) then k + 1 else k, retries)
    requires verdict == (
      match Attempted(g, script, cp, k)
      case Success(stepped) => Advanced(stepped, Tripped(g, cfg, script, cp, k))
      case Failure(e) => if Tripped(g, cfg, script, cp, k) then Interrupted else Exhausted(e))
    ensures AfterAttempts(g, cfg, script, cp.step, cp.state, verdict) == Prepend([], nodes,
      if next.Some? then Loop(g, cfg, script, cp.step + 1, next.value.0, next.value.1)
      else End(status, script, cp.step + 1, reason, outcome))
    ensures next.None? ==> ToldBy(g, cfg, script, cp, k, Report(retries, nodes), true, reason, outcome)
    ensures next.Some? ==> forall r, o, last | last ==> Over(cfg, next.value.1, r, o) ::
      ToldBy(g, cfg, script, cp, k, Report(retries, nodes), last, r, o)
  {
    hide Attempted, LastAttempt, RetriesTold, RouteFrom, NodesTold, Loop, LostAt, Leads;
    nodes, status, reason, outcome, next := [], Suspended, WasCancelled, Success(cp.state), None;
    var run := AfterAttempts(g, cfg, script, cp.step, cp.state, verdict);
    match verdict
    case Interrupted => assert run == Prepend([], [], run);
    case Exhausted(e) =>
      nodes, status, reason, outcome := FailureEvents(cp.step, e), RunState.Failed, HitError, Failure(StepFailed(e));
    case Advanced(stepped, cancelled) =>
      outcome := Success(stepped.state);
      if cancelled {
        assert run == Prepend([], [], run);
      } else {
        var m := RoutesTold(g, cp.step, stepped.ran, stepped.state);
        var routed := RouteFrom(g, cp.step, stepped.ran, stepped.state);
        nodes := routed.events;
        if routed.next.Success? {
          next := Some((routed.next.value, stepped.state));
        } else {
          status, reason, outcome := RunState.Failed, HitError, Failure(routed.next.error);
          assert RoutedFinal(g, cfg, cp.step, stepped, nodes, reason, outcome);
        }
      }
  }

  /** Every run tells, super-step by super-step, how its attempts went, which nodes ran and where
      they led, and returns what its last super-step left. */
  lemma {:induction false} LoopTold(g: Graph, cfg: Config, script: Script, step: nat, frontier: seq<string>, s: State)
    returns (reports: seq<Report>, reason: Reason)
    ensures Told(g, cfg, script, s, Loop(g, cfg, script, step, frontier, s), reports, reason)
    decreases cfg.maxSteps - step
  {
    hide TryUntil, Canonical, Told, ToldBy, AfterAttempts, Attempted, End, Prepend;
    var names := Canonical(frontier);
    if step >= cfg.maxSteps || names == [] {
      reason := ToldOver(g, cfg, script, step, frontier, s);
      return [], reason;
    }
    LoopUnfolds(g, cfg, script, step, frontier, s);
    var cp, ok := Checkpoint(cfg.blueprint, step, names, s), script.saveOk(step);
    var tried := TryUntil(g, cfg, script, step, names, s, 0);
    var k := AttemptsTold(g, cfg, script, cp, 0);
    var nodes, status, outcome, next;
    nodes, status, reason, outcome, next := AfterTold(g, cfg, script, cp, k, tried.verdict, tried.retries);
    var report := Report(tried.retries, nodes);
    assert [Save(cp, ok)] + [] == [Save(cp, ok)];
    if next.None? {
      PrependTwice([Save(cp, ok)], tried.retries, [], nodes, End(status, script, step + 1, reason, outcome));
      ToldAtEnd(g, cfg, script, s, cp, ok, report, k, status, step + 1, reason, outcome);
      reports := [report];
    } else {
      var run := Loop(g, cfg, script, step + 1, next.value.0, next.value.1);
      PrependTwice([Save(cp, ok)], tried.retries, [], nodes, run);
      reports, reason := LoopTold(g, cfg, script, step + 1, next.value.0, next.value.1);
      OverWhenEmpty(g, cfg, script, next.value.1, run, reports, reason);
      ToldPrepended(g, cfg, script, s, cp, ok, report, k, run, next.value.1, reports, reason);
      reports := [report] + reports;
    }
  }

  lemma OverWhenEmpty(g: Graph, cfg: Config, script: Script, s: State, run: Run, reports: seq<Report>, reason: Reason)
    requires Told(g, cfg, script, s, run, reports, reason)
    ensures reports == [] ==> Over(cfg, s, reason, run.outcome)
  {
  }

  /** So does a whole run after its opening event, from the entry or from a checkpoint. */
  lemma RunTold(g: Graph, cfg: Config, script: Script, start: Start) returns (reports: seq<Report>, reason: Reason)
    requires cfg.maxSteps > 0
    ensures var run := RunOf(g, cfg, script, start);
      && run.events != []
      && match start
         case Fresh(task) => (
           && run.events[0] == BlueprintStarted(g.name, g.entry)
           && Told(g, cfg, script, New(task), Run(run.writes, run.events[1..], run.outcome), reports, reason))
         case Resume(cp) => (
           && run.events[0] == BlueprintResumed(g.name, cp.step)
           && Told(g, cfg, script, cp.state, Run(run.writes, run.events[1..], run.outcome), reports, reason))
  {
    hide Loop, RunOf, Told;
    RunOfUnfolds(g, cfg, script, start);
    var run, loop := RunOf(g, cfg, script, start), FirstLoop(g, cfg, script, start);
    assert Run(run.writes, run.events[1..], run.outcome) == loop;
    match start
    case Fresh(task) => reports, reason := LoopTold(g, cfg, script, 0, [g.entry], New(task));
    case Resume(cp) => reports, reason := LoopTold(g, cfg, script, cp.step, cp.frontier, cp.state);
  }
}
