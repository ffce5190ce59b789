/** The shape of what a run leaves behind: its store writes and its audit trail. */
module Trails {
  import opened Wrappers
  import opened Names
  import opened Channels
  import opened Graphs
  import opened SuperSteps
  import opened Checkpoints
  import opened Runs

  function StatusFor(reason: Reason): RunState {
    match reason
    case ReachedEnd => Completed
    case WasCancelled => Suspended
    case HitError => RunState.Failed
    case HitStepLimit => RunState.Failed
  }

  function Last(events: seq<Event>): Event
    requires events != []
  {
    events[|events| - 1]
  }

  /** Saves, one per super-step in step order, then exactly one status write; node and retry
      events, then exactly one completion event, whose step count is the number of super-steps
      entered and whose reason matches both the status and the outcome. A run resumed beyond a
      lowered step limit counts the limit. */
  ghost predicate WellFormed(cfg: Config, script: Script, step: nat, run: Run) {
    && run.writes != [] && run.events != []
    && Last(run.events).BlueprintCompleted?
    && Last(run.events).steps == (if step <= cfg.maxSteps then step + |run.writes| - 1 else cfg.maxSteps)
    && run.writes[|run.writes| - 1] == SetStatus(StatusFor(Last(run.events).reason), script.statusOk)
    && (forall i | 0 <= i < |run.writes| - 1 :: SavesStep(cfg, script, step + i, run.writes[i]))
    && (forall i | 0 <= i < |run.events| - 1 :: run.events[i].NodeExecuted? || run.events[i].SuperStepRetried?)
    && (run.outcome.Success? <==> Last(run.events).reason.ReachedEnd? || Last(run.events).reason.WasCancelled?)
  }

  ghost predicate SavesStep(cfg: Config, script: Script, step: nat, w: Write) {
    w.Save? && w.checkpoint.step == step < cfg.maxSteps && w.checkpoint.blueprint == cfg.blueprint && w.ok == script.saveOk(step)
  }

  ghost predicate StepEvents(events: seq<Event>) {
    forall i | 0 <= i < |events| :: events[i].NodeExecuted? || events[i].SuperStepRetried?
  }

  lemma WellFormedPrepended(cfg: Config, script: Script, step: nat, ws: seq<Write>, es: seq<Event>, run: Run)
    requires step + |ws| <= cfg.maxSteps && WellFormed(cfg, script, step + |ws|, run)
    requires forall i | 0 <= i < |ws| :: SavesStep(cfg, script, step + i, ws[i])
    requires StepEvents(es)
    ensures WellFormed(cfg, script, step, Prepend(ws, es, run))
  {
    var all := Prepend(ws, es, run);
    assert Last(all.events) == Last(run.events);
    assert all.writes[|all.writes| - 1] == run.writes[|run.writes| - 1];
    forall i | 0 <= i < |all.writes| - 1 ensures SavesStep(cfg, script, step + i, all.writes[i]) {
      if i >= |ws| {
        assert SavesStep(cfg, script, step + |ws| + (i - |ws|), run.writes[i - |ws|]);
      }
    }
    forall i | 0 <= i < |all.events| - 1 ensures all.events[i].NodeExecuted? || all.events[i].SuperStepRetried? {
      if i >= |es| {
        assert all.events[i] == run.events[i - |es|];
      }
    }
  }

  lemma {:induction false} RoutingEvents(g: Graph, step: nat, ran: seq<Ran>, s: State)
    ensures StepEvents(RouteFrom(g, step, ran, s).events)
  {
    if ran != [] {
      RoutingEvents(g, step, ran[1..], s);
    }
  }

  /** Routing succeeds exactly when every node that ran leads only to nodes or END. Then each of
      them is reported once, in order, with all its successors, and the next frontier is found
      to hold exactly the live ones. */
  lemma {:induction false} RoutingMeans(g: Graph, step: nat, ran: seq<Ran>, s: State)
    ensures var r := RouteFrom(g, step, ran, s);
      && (r.next.Success? <==> forall x, t | x in ran && t in g.Targets(x.name, s) :: g.Knows(t))
      && (r.next.Success? ==> r.events == Reports(g, step, ran, s))
      && (r.next.Success? ==> forall t :: t in r.next.value <==> t != END && exists x :: x in ran && t in g.Targets(x.name, s))
  {
    if ran != [] {
      RoutingMeans(g, step, ran[1..], s);
      assert forall x :: x in ran <==> x == ran[0] || x in ran[1..];
    }
  }

  function Reports(g: Graph, step: nat, ran: seq<Ran>, s: State): seq<Event> {
    seq(|ran|, i requires 0 <= i < |ran| =>
      NodeExecuted(step + 1, ran[i].name, ran[i].status, Some(g.Targets(ran[i].name, s)), ran[i].output))
  }

  /** The retries of a super-step are numbered 1, 2, ... and never exceed the limit, so a
      super-step makes at most one attempt more than the limit. */
  lemma {:induction false} RetriesNumbered(g: Graph, cfg: Config, script: Script, step: nat, names: seq<string>, s: State, k: nat)
    requires k <= cfg.maxRetries
    ensures var retries := TryUntil(g, cfg, script, step, names, s, k).retries;
      && |retries| <= cfg.maxRetries - k
      && forall i | 0 <= i < |retries| ::
           retries[i].SuperStepRetried? && retries[i].step == step + 1 && retries[i].attempt == k + i + 1
    ensures TryUntil(g, cfg, script, step, names, s, k).verdict.Exhausted? ==>
      |TryUntil(g, cfg, script, step, names, s, k).retries| == cfg.maxRetries - k
    decreases cfg.maxRetries - k
  {
    hide Try;
    if k < cfg.maxRetries {
      RetriesNumbered(g, cfg, script, step, names, s, k + 1);
    }
  }

  /** Every run that is not cut short leaves a well-formed trail. */
  lemma {:induction false} LoopWellFormed(g: Graph, cfg: Config, script: Script, step: nat, frontier: seq<string>, s: State)
    ensures WellFormed(cfg, script, step, Loop(g, cfg, script, step, frontier, s))
    decreases cfg.maxSteps - step
  {
    hide TryUntil, RouteFrom, Canonical;
    var names := Canonical(frontier);
    if step < cfg.maxSteps && names != [] {
      LoopUnfolds(g, cfg, script, step, frontier, s);
      RetriesNumbered(g, cfg, script, step, names, s, 0);
      var tried := TryUntil(g, cfg, script, step, names, s, 0);
      var save := Save(Checkpoint(cfg.blueprint, step, names, s), script.saveOk(step));
      VerdictWellFormed(g, cfg, script, step, s, tried.verdict);
      WellFormedPrepended(cfg, script, step, [save], tried.retries, AfterAttempts(g, cfg, script, step, s, tried.verdict));
    }
  }

  lemma {:induction false} VerdictWellFormed(g: Graph, cfg: Config, script: Script, step: nat, s: State, verdict: Verdict)
    requires step < cfg.maxSteps
    ensures WellFormed(cfg, script, step + 1, AfterAttempts(g, cfg, script, step, s, verdict))
    decreases cfg.maxSteps - step, 0
  {
    hide RouteFrom, Loop;
    match verdict
    case Interrupted =>
    case Exhausted(e) =>
    case Advanced(stepped, cancelled) =>
      if !cancelled {
        RoutingEvents(g, step, stepped.ran, stepped.state);
        var routed := RouteFrom(g, step, stepped.ran, stepped.state);
        if routed.next.Success? {
          LoopWellFormed(g, cfg, script, step + 1, routed.next.value, stepped.state);
          WellFormedPrepended(cfg, script, step + 1, [], routed.events,
                              Loop(g, cfg, script, step + 1, routed.next.value, stepped.state));
        }
      }
  }

  /** The whole trail of a run: it opens with one start or resume event, and with a positive
      step budget the rest is well formed; with none the run is refused and leaves nothing. */
  lemma RunWellFormed(g: Graph, cfg: Config, script: Script, start: Start)
    ensures var run := RunOf(g, cfg, script, start);
      if cfg.maxSteps == 0 then run == Run([], [], Failure(InvalidConfig))
      else
        && run.events != []
        && run.events[0] == Opening(g, start)
        && WellFormed(cfg, script, if start.Fresh? then 0 else start.checkpoint.step,
                      Run(run.writes, run.events[1..], run.outcome))
        && (start.Resume? && start.checkpoint.step > cfg.maxSteps ==>
              Run(run.writes, run.events[1..], run.outcome)
              == End(RunState.Failed, script, cfg.maxSteps, HitStepLimit, Failure(StepLimit(cfg.maxSteps))))
  {
    hide Loop, WellFormed;
    if cfg.maxSteps > 0 {
      RunOfUnfolds(g, cfg, script, start);
      match start
      case Fresh(task) => LoopWellFormed(g, cfg, script, 0, [g.entry], New(task));
      case Resume(cp) =>
        LoopWellFormed(g, cfg, script, cp.step, cp.frontier, cp.state);
        if cp.step > cfg.maxSteps {
          LoopOutOfBudget(g, cfg, script, cp.step, cp.frontier, cp.state);
        }
    }
  }

  /** A run that ends on its own with a working store is resumable exactly when it was
      cancelled; one that dies between two writes stays resumable. */
  lemma ResumableAfter(g: Graph, cfg: Config, script: Script, start: Start, row: Option<Row>, k: nat)
    requires cfg.maxSteps > 0
    requires row.Some? ==> row.value.status.IsResumable()
    requires k <= |RunOf(g, cfg, script, start).writes|
    requires script.statusOk && forall step :: script.saveOk(step)
    ensures var run := RunOf(g, cfg, script, start);
      var after := AllWritten(row, run.writes[..k]);
      && (k == |run.writes| && (row.Some? || k > 1) ==>
            after.Some? && (after.value.status.IsResumable() <==> EndsWith(run, WasCancelled)))
      && (k < |run.writes| && after.Some? ==> after.value.status.IsResumable())
  {
    hide RunOf;
    RunWellFormed(g, cfg, script, start);
    var run := RunOf(g, cfg, script, start);
    assert Last(run.events) == Last(run.events[1..]);
    var saves := run.writes[..if k < |run.writes| then k else k - 1];
    SavesResumable(row, saves);
    if k == |run.writes| {
      assert run.writes[..k][..k - 1] == saves;
    } else {
      assert run.writes[..k] == saves;
    }
  }

  lemma {:induction false} SavesResumable(row: Option<Row>, saves: seq<Write>)
    requires row.Some? ==> row.value.status.IsResumable()
    requires forall w | w in saves :: w.Save? && w.ok
    ensures AllWritten(row, saves).Some? <==> row.Some? || saves != []
    ensures AllWritten(row, saves).Some? ==> AllWritten(row, saves).value.status.IsResumable()
  {
  }
}
