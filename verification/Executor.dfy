/** The executor itself: the loops that run, retry, route, checkpoint and emit. */
module Executors {
  import opened Wrappers
  import opened Names
  import opened Channels
  import opened Graphs
  import opened SuperSteps
  import opened Checkpoints
  import opened Runs
  import opened Sandboxes
  import opened Provisioning
  import Recovery

  /** How a piece of a run ends: by itself, or cut short by a panicking node. */
  datatype Ending<T> = Returned(value: T) | Panicked

  datatype Progress =
    | Stop(outcome: Result<State, RunError>)
    | Continue(frontier: seq<string>, state: State)
    | Died

  function Extend(found: seq<string>, next: Result<seq<string>, RunError>): Result<seq<string>, RunError> {
    if next.Success? then Success(found + next.value) else next
  }

  lemma ExtendTwice(a: seq<string>, b: seq<string>, next: Result<seq<string>, RunError>)
    ensures Extend(a, Extend(b, next)) == Extend(a + b, next)
  {
    if next.Success? {
      assert a + (b + next.value) == (a + b) + next.value;
    }
  }

  lemma ExtendNothing(next: Result<seq<string>, RunError>)
    ensures Extend([], next) == next
  {
    if next.Success? {
      assert [] + next.value == next.value;
    }
  }

  datatype ResumeError = NoCheckpoint | LoadFailed | AlreadyFinished | OtherBlueprint | RunFailed(error: RunError)

  class Executor {
    const cfg: Config
    const store: Store?
    const runId: Option<string>
    var events: seq<Event>

    constructor (cfg: Config, store: Store?, runId: Option<string>)
      ensures this.cfg == cfg && this.store == store && this.runId == runId && events == []
    {
      this.cfg, this.store, this.runId := cfg, store, runId;
      events := [];
    }

    /** The store's log has grown from `log` by exactly the writes `ws` of this run; without a
        run id nothing is written. */
    ghost predicate Wrote(log: seq<(string, Write)>, ws: seq<Write>)
      reads store
    {
      store != null ==> store.Valid() && store.log == if runId.None? then log else log + Tagged(runId.value, ws)
    }

    lemma WroteNothing()
      requires store != null ==> store.Valid()
      ensures store != null ==> Wrote(store.log, [])
      ensures store == null ==> forall log, ws :: Wrote(log, ws)
    {
      if store != null && runId.Some? {
        assert store.log + Tagged(runId.value, []) == store.log;
      }
    }

    method Emit(e: Event)
      modifies this`events
      ensures events == old(events) + [e]
    {
      events := events + [e];
    }

    /** Writes a snapshot when checkpointing is active; a refused write is ignored. */
    method SaveCheckpoint(cp: Checkpoint, ok: bool,
                          ghost log: seq<(string, Write)>, ghost ws: seq<Write>)
      requires Wrote(log, ws)
      modifies store
      ensures Wrote(log, ws + [Save(cp, ok)])
    {
      if store != null && runId.Some? {
        store.Upsert(runId.value, cp, ok);
        assert Tagged(runId.value, ws + [Save(cp, ok)]) == Tagged(runId.value, ws) + [(runId.value, Save(cp, ok))];
      }
    }

    /** Flips the stored status when checkpointing is active; a refused write is ignored. */
    method SetCheckpointStatus(status: RunState, ok: bool,
                               ghost log: seq<(string, Write)>, ghost ws: seq<Write>)
      requires Wrote(log, ws)
      modifies store
      ensures Wrote(log, ws + [SetStatus(status, ok)])
    {
      if store != null && runId.Some? {
        store.UpdateStatus(runId.value, status, ok);
        assert Tagged(runId.value, ws + [SetStatus(status, ok)])
            == Tagged(runId.value, ws) + [(runId.value, SetStatus(status, ok))];
      }
    }

    /** Makes a node's requests, one after the other. */
    static method Request(answers: seq<Option<string>>, sandbox: Sandboxes, ghost acts: seq<Act>)
      requires sandbox.Did(acts)
      modifies sandbox
      ensures sandbox.Did(acts + Asked(answers))
      decreases |answers|
    {
      hide sandbox.Did;
      if answers == [] {
        assert acts + [] == acts;
      } else {
        var _ := sandbox.Provision(answers[0], acts);
        ghost var first := [if answers[0].Some? then Granted(answers[0].value) else Refused];
        Request(answers[1..], sandbox, acts + first);
        assert acts + (first + Asked(answers[1..])) == acts + first + Asked(answers[1..]);
      }
    }

    /** A panic unwinds: every pending node is dropped where it stands, and a sibling's request in
        flight is never recorded. */
    static method Unwind(a: Attempt, p: Panic, pending: seq<string>, faulty: string, sandbox: Sandboxes, ghost acts: seq<Act>)
      requires sandbox.Did(acts)
      modifies sandbox
      ensures sandbox.Did(acts + PanicActs(a, p, pending, faulty))
      decreases |pending|
    {
      hide sandbox.Did, Asked;
      if pending == [] {
        assert acts + [] == acts;
      } else {
        var name := pending[0];
        var answers := a.answers(name);
        Request(if p.answered(name) < |answers| then answers[..p.answered(name)] else answers, sandbox, acts);
        ghost var answered, inFlight := AnsweredAt(a, p, name), InFlightAt(p, name, faulty);
        if name != faulty && p.inFlight(name).Some? {
          sandbox.Abandon(p.inFlight(name).value, acts + answered);
        } else {
          assert acts + answered + [] == acts + answered;
        }
        Unwind(a, p, pending[1..], faulty, sandbox, acts + answered + inFlight);
        AddThree(acts, answered, inFlight, PanicActs(a, p, pending[1..], faulty));
      }
    }

    /** Waits for the nodes in the order the attempt picks, unless one panics. Every node is waited
        for, the first error is kept. */
    static method JoinAll(g: Graph, a: Attempt, names: seq<string>, s: State, sandbox: Sandboxes, ghost acts: seq<Act>)
      returns (r: Ending<Result<map<string, Update>, StepError>>)
      requires AllKnown(g, names) && sandbox.Did(acts)
      modifies sandbox
      ensures sandbox.Did(acts + JoinRequests(a, names, 0).acts)
      ensures r.Panicked? <==> JoinRequests(a, names, 0).panicked
      ensures r.Returned? ==> r.value == Join(g, a, s, names, map[], 0)
    {
      hide sandbox.Did, Asked, PanicActs;
      var pending, completed := names, 0;
      var got: map<string, Update> := map[];
      var firstError: Option<StepError> := None;
      ghost var done: seq<Act> := acts;
      ghost var rest := JoinRequests(a, names, 0);
      ghost var whole := rest;
      while pending != []
        invariant AllKnown(g, pending)
        invariant match firstError
                  case None => Join(g, a, s, names, map[], 0) == Join(g, a, s, pending, got, completed)
                  case Some(e) => Join(g, a, s, names, map[], 0) == Failure(e)
        invariant rest == JoinRequests(a, pending, completed)
        invariant acts + whole.acts == done + rest.acts && whole.panicked == rest.panicked
        invariant sandbox.Did(done)
        decreases |pending|
      {
        var i := Chosen(a, pending);
        var name := pending[i];
        if a.panic.Some? && a.panic.value.at == completed {
          Unwind(a, a.panic.value, pending, name, sandbox, done);
          return Panicked;
        }
        Request(a.answers(name), sandbox, done);
        ghost var rest' := JoinRequests(a, Without(pending, i), completed + 1);
        assert done + (Asked(a.answers(name)) + rest'.acts) == (done + Asked(a.answers(name))) + rest'.acts;
        done, rest := done + Asked(a.answers(name)), rest';
        match Reply(g, a, s, name, completed) {
          case Done(u) => got := got[name := u];
          case Errored(reason) =>
            if firstError.None? {
              firstError := Some(NodeFailure(name, reason));
            }
        }
        pending, completed := Without(pending, i), completed + 1;
      }
      assert done + [] == done;
      return Returned(if firstError.Some? then Failure(firstError.value) else Success(got));
    }

    /** Merges the updates in frontier order and lets failure dominate. */
    static method MergeAll(names: seq<string>, us: seq<Update>, s: State) returns (stepped: Stepped)
      requires |names| == |us|
      ensures stepped == Finish(s, names, us)
    {
      hide ApplyAll, AnyStatus, AnyFailed, Account, Accounts;
      NothingApplied(s);
      var merged, ran := s, [];
      var anyFailed, anyStatus := false, false;
      ghost var accounts := Accounts(names, us);
      for i := 0 to |us|
        invariant merged == ApplyAll(s, us[..i])
        invariant ran == accounts[..i]
        invariant anyFailed == AnyFailed(us[..i]) && anyStatus == AnyStatus(us[..i])
      {
        if us[i].status.Some? {
          anyStatus := true;
          anyFailed := anyFailed || us[i].status == Some(Status.Failed);
        }
        AnySnoc(us[..i], us[i]);
        ApplyAllSnoc(s, us[..i], us[i]);
        assert us[..i + 1] == us[..i] + [us[i]];
        merged := merged.Apply(us[i]);
        ran := ran + [Account(names[i], us[i])];
      }
      assert us[..|us|] == us && accounts[..|us|] == accounts;
      if anyStatus {
        merged := merged.(status := Some(if anyFailed then Status.Failed else Ok));
      }
      return Stepped(merged, ran);
    }

    /** Runs the frontier against one snapshot: nothing is merged unless every node produced an
        update. */
    static method RunFrontier(g: Graph, a: Attempt, names: seq<string>, s: State, sandbox: Sandboxes, ghost acts: seq<Act>)
      returns (r: Ending<Result<Stepped, StepError>>)
      requires sandbox.Did(acts)
      modifies sandbox
      ensures sandbox.Did(acts + AttemptRequests(g, a, names).acts)
      ensures r.Panicked? <==> AttemptRequests(g, a, names).panicked
      ensures r.Returned? ==> r.value == Try(g, a, names, s)
    {
      hide sandbox.Did, JoinRequests;
      var missing := FirstMissing(g, names);
      if missing.Some? {
        assert acts + [] == acts;
        return Returned(Failure(UnknownNode(missing.value)));
      }
      var joined := JoinAll(g, a, names, s, sandbox, acts);
      if joined.Panicked? {
        return Panicked;
      }
      if joined.value.Failure? {
        return Returned(Failure(joined.value.error));
      }
      var stepped := MergeAll(names, InOrder(names, joined.value.value), s);
      return Returned(Success(stepped));
    }

    /** Attempts one super-step until it succeeds, is cancelled, or runs out of retries, unless a
        node panics. Every attempt starts from the same state. */
    method RunSuperStep(g: Graph, script: Script, step: nat, names: seq<string>, s: State, sandbox: Sandboxes,
                        ghost acts: seq<Act>)
      returns (r: Ending<Verdict>)
      requires sandbox.Did(acts)
      modifies this`events, sandbox
      ensures sandbox.Did(acts + TryRequests(g, cfg, script, step, names, s, 0).acts)
      ensures r.Panicked? <==> TryRequests(g, cfg, script, step, names, s, 0).panicked
      ensures r.Returned? ==> r.value == TryUntil(g, cfg, script, step, names, s, 0).verdict
      ensures r.Returned? ==> events == old(events) + TryUntil(g, cfg, script, step, names, s, 0).retries
      ensures old(events) <= events <= old(events) + TryUntil(g, cfg, script, step, names, s, 0).retries
    {
      hide sandbox.Did, AttemptRequests, Try, TryUntil, TryRequests, SoFar;
      var k := 0;
      ghost var retries: seq<Event>, asked: seq<Act> := [], [];
      NothingSoFar(g, cfg, script, step, names, s);
      assert acts + [] == acts;
      while true
        invariant k <= cfg.maxRetries && SoFar(g, cfg, script, step, names, s, k, retries, asked)
        invariant events == old(events) + retries && sandbox.Did(acts + asked)
        decreases cfg.maxRetries - k
      {
        AttemptUnfolds(g, cfg, script, step, names, s, k, retries, asked);
        var a := script.attempt(step, k);
        var r := RunFrontier(g, a, names, s, sandbox, acts + asked);
        ghost var more := AttemptRequests(g, a, names).acts;
        AddTwo(acts, asked, more);
        asked := asked + more;
        if r.Panicked? {
          return Panicked;
        }
        if r.value.Success? {
          return Returned(Advanced(r.value.value, a.cancelAt.Some?));
        }
        if a.cancelAt.Some? {
          return Returned(Interrupted);
        }
        if k >= cfg.maxRetries {
          return Returned(Exhausted(r.value.error));
        }
        k := k + 1;
        var retried := SuperStepRetried(step + 1, k, r.value.error);
        Emit(retried);
        assert old(events) + retries + [retried] == old(events) + (retries + [retried]);
        retries := retries + [retried];
        if a.cancelBackoff {
          return Returned(Interrupted);
        }
      }
    }

    /** Routes every node that ran, in order, and collects the live successors. */
    method RouteRan(g: Graph, step: nat, ran: seq<Ran>, s: State) returns (next: Result<seq<string>, RunError>)
      modifies this`events
      ensures next == RouteFrom(g, step, ran, s).next
      ensures events == old(events) + RouteFrom(g, step, ran, s).events
    {
      var found: seq<string> := [];
      ghost var emitted: seq<Event> := [];
      ghost var rest := RouteFrom(g, step, ran, s);
      ghost var whole := rest;
      assert ran[0..] == ran;
      ExtendNothing(whole.next);
      for i := 0 to |ran|
        invariant rest == RouteFrom(g, step, ran[i..], s)
        invariant events == old(events) + emitted
        invariant whole.events == emitted + rest.events
        invariant whole.next == Extend(found, rest.next)
      {
        var r := ran[i];
        assert ran[i..][0] == r && ran[i..][1..] == ran[i + 1..];
        ghost var rest' := RouteFrom(g, step, ran[i + 1..], s);
        match g.Route(r.name, s) {
          case Failure(target) =>
            Emit(NodeExecuted(step + 1, r.name, r.status, None, r.output));
            return Failure(RoutedNowhere(r.name, target));
          case Success(targets) =>
            var e := NodeExecuted(step + 1, r.name, r.status, Some(targets), r.output);
            Emit(e);
            ExtendTwice(found, Live(targets), rest'.next);
            assert emitted + ([e] + rest'.events) == (emitted + [e]) + rest'.events;
            found, emitted, rest := found + Live(targets), emitted + [e], rest';
        }
      }
      assert found + [] == found && emitted + [] == emitted;
      return Success(found);
    }

    /** Sets the final status, emits the last event. */
    method Close(status: RunState, ok: bool, steps: nat, reason: Reason,
                 ghost log: seq<(string, Write)>, ghost ws: seq<Write>)
      requires Wrote(log, ws)
      modifies this`events, store
      ensures events == old(events) + [BlueprintCompleted(steps, reason)]
      ensures Wrote(log, ws + [SetStatus(status, ok)])
    {
      SetCheckpointStatus(status, ok, log, ws);
      Emit(BlueprintCompleted(steps, reason));
    }

    /** Acts on how the attempts ended: stop, or route and continue with the next frontier. */
    method Settled(g: Graph, script: Script, step: nat, s: State, verdict: Verdict,
                   ghost log: seq<(string, Write)>, ghost ws: seq<Write>)
      returns (progress: Progress, ghost routed: seq<Event>, ghost rest: Run)
      requires step < cfg.maxSteps && Wrote(log, ws)
      modifies this`events, store
      ensures var after := AfterAttempts(g, cfg, script, step, s, verdict);
        match progress
        case Stop(outcome) => (
          && after.outcome == outcome && events == old(events) + after.events && Wrote(log, ws + after.writes)
          && NextAfter(g, step, verdict).None?)
        case Continue(frontier, state) => (
          && rest == Loop(g, cfg, script, step + 1, frontier, state) && after == Prepend([], routed, rest)
          && events == old(events) + routed && Wrote(log, ws)
          && NextAfter(g, step, verdict) == Some((frontier, state)))
        case Died => false
    {
      routed, rest := [], AfterAttempts(g, cfg, script, step, s, verdict);
      match verdict {
        case Interrupted =>
          Close(Suspended, script.statusOk, step + 1, WasCancelled, log, ws);
          return Stop(Success(s)), routed, rest;
        case Exhausted(e) =>
          if e.NodeFailure? {
            Emit(NodeExecuted(step + 1, e.node, Status.Failed, Some([]), e.reason));
          }
          Close(RunState.Failed, script.statusOk, step + 1, HitError, log, ws);
          return Stop(Failure(StepFailed(e))), routed, rest;
        case Advanced(stepped, cancelled) =>
          if cancelled {
            Close(Suspended, script.statusOk, step + 1, WasCancelled, log, ws);
            return Stop(Success(stepped.state)), routed, rest;
          }
          var next := RouteRan(g, step, stepped.ran, stepped.state);
          routed := RouteFrom(g, step, stepped.ran, stepped.state).events;
          if next.Failure? {
            Close(RunState.Failed, script.statusOk, step + 1, HitError, log, ws);
            return Stop(Failure(next.error)), routed, rest;
          }
          return Continue(next.value, stepped.state), routed, Loop(g, cfg, script, step + 1, next.value, stepped.state);
      }
    }

    /** One turn of the super-step loop, from the canonical frontier to the next one. A panic ends
        it with no more than the snapshot written and some retries reported. */
    method SuperStep(g: Graph, script: Script, step: nat, found: seq<string>, s: State, sandbox: Sandboxes,
                     ghost log: seq<(string, Write)>, ghost ws: seq<Write>, ghost acts: seq<Act>)
      returns (progress: Progress, ghost ws': seq<Write>, ghost es': seq<Event>, ghost rest: Run, ghost asked: Requests)
      requires step < cfg.maxSteps && Wrote(log, ws) && sandbox.Did(acts)
      modifies this`events, store, sandbox
      ensures sandbox.Did(acts + asked.acts)
      ensures asked.panicked <==> progress.Died?
      ensures var loop, requests := Loop(g, cfg, script, step, found, s), LoopRequests(g, cfg, script, step, found, s);
        match progress
        case Stop(outcome) => (
          && loop.outcome == outcome && events == old(events) + loop.events && Wrote(log, ws + loop.writes)
          && requests == asked)
        case Continue(frontier, state) => (
          && rest == Loop(g, cfg, script, step + 1, frontier, state) && loop == Prepend(ws', es', rest)
          && events == old(events) + es' && Wrote(log, ws + ws')
          && requests == Then(asked, LoopRequests(g, cfg, script, step + 1, frontier, state)))
        case Died => (
          && Cut(loop, ws', old(events), events) && Wrote(log, ws + ws')
          && requests == asked)
    {
      hide Loop, TryUntil, AfterAttempts, TryRequests, LoopRequests, NextAfter, sandbox.Did, Canonical, Cut, Prepend, Then;
      LoopUnfolds(g, cfg, script, step, found, s);
      LoopRequestsUnfold(g, cfg, script, step, found, s);
      var frontier := Canonical(found);
      if frontier == [] {
        Close(Completed, script.statusOk, step, ReachedEnd, log, ws);
        assert acts + [] == acts;
        return Stop(Success(s)), [], [], Loop(g, cfg, script, step, found, s), NO_REQUESTS;
      }
      var save := Save(Checkpoint(cfg.blueprint, step, frontier, s), script.saveOk(step));
      SaveCheckpoint(save.checkpoint, save.ok, log, ws);
      ghost var tried := TryUntil(g, cfg, script, step, frontier, s, 0);
      var r := RunSuperStep(g, script, step, frontier, s, sandbox, acts);
      asked := TryRequests(g, cfg, script, step, frontier, s, 0);
      if r.Panicked? {
        AlwaysWrites(g, cfg, script, step, s, tried.verdict);
        CutHere(save, tried.retries, AfterAttempts(g, cfg, script, step, s, tried.verdict), old(events), events);
        return Died, [save], [], Loop(g, cfg, script, step, found, s), asked;
      }
      var verdict := r.value;
      ghost var after := AfterAttempts(g, cfg, script, step, s, verdict);
      ghost var routed;
      PrependAdds([save], tried.retries, after);
      progress, routed, rest := Settled(g, script, step, s, verdict, log, ws + [save]);
      ws', es' := [save], tried.retries + routed;
      assert ws + ([save] + after.writes) == (ws + [save]) + after.writes;
      assert [save] + [] == [save];
      PrependTwice([save], tried.retries, [], routed, rest);
    }

    /** The super-step loop from a given position. A panic cuts it before the end. */
    method RunLoop(g: Graph, script: Script, first: nat, entry: seq<string>, s: State, sandbox: Sandboxes,
                   ghost log: seq<(string, Write)>)
      returns (r: Ending<Result<State, RunError>>, ghost ws: seq<Write>)
      requires Wrote(log, []) && sandbox.Did([])
      modifies this`events, store, sandbox
      ensures sandbox.Did(LoopRequests(g, cfg, script, first, entry, s).acts)
      ensures r.Panicked? <==> LoopRequests(g, cfg, script, first, entry, s).panicked
      ensures Wrote(log, ws)
      ensures var loop := Loop(g, cfg, script, first, entry, s);
        match r
        case Returned(outcome) => outcome == loop.outcome && events == old(events) + loop.events && ws == loop.writes
        case Panicked => Cut(loop, ws, old(events), events)
    {
      hide Loop, LoopRequests, sandbox.Did, Cut, Wrote, Then, Prepend;
      var step, frontier, state := first, entry, s;
      ws := [];
      ghost var es: seq<Event>, acts: seq<Act> := [], [];
      ghost var whole, all := Loop(g, cfg, script, first, entry, s), LoopRequests(g, cfg, script, first, entry, s);
      ghost var rest, asked := whole, all;
      AllToDo(whole, all);
      while step < cfg.maxSteps
        invariant whole == Prepend(ws, es, rest) && all == Then(Requests(acts, false), asked)
        invariant rest == Loop(g, cfg, script, step, frontier, state)
        invariant asked == LoopRequests(g, cfg, script, step, frontier, state)
        invariant events == old(events) + es && Wrote(log, ws) && sandbox.Did(acts)
        decreases cfg.maxSteps - step
      {
        var progress;
        ghost var ws', es', rest', asked';
        progress, ws', es', rest', asked' := SuperStep(g, script, step, frontier, state, sandbox, log, ws, acts);
        PartsAdd(ws, es, rest, acts, asked);
        if progress.Stop? {
          return Returned(progress.outcome), whole.writes;
        }
        if progress.Died? {
          CutPrepended(ws, es, rest, ws', old(events), old(events) + es, events);
          return Panicked, ws + ws';
        }
        PrependTwice(ws, es, ws', es', rest');
        frontier, state, step := progress.frontier, progress.state, step + 1;
        ThenTwice(acts, asked', LoopRequests(g, cfg, script, step, frontier, state));
        ws, es, rest := ws + ws', es + es', rest';
        acts, asked := acts + asked'.acts, LoopRequests(g, cfg, script, step, frontier, state);
      }
      LoopOutOfBudget(g, cfg, script, step, frontier, state);
      LoopRequestsUnfold(g, cfg, script, step, frontier, state);
      PartsAdd(ws, es, rest, acts, asked);
      assert acts + [] == acts;
      Close(RunState.Failed, script.statusOk, cfg.maxSteps, HitStepLimit, log, ws);
      return Returned(Failure(StepLimit(cfg.maxSteps))), whole.writes;
    }

    /** One run, fresh or resumed. What it returns, emits and writes is `RunOf`, or a part of that
        when a node panics; what it asks the backend for is `RunRequests`. */
    method RunGraph(g: Graph, start: Start, script: Script, sandbox: Sandboxes)
      returns (r: Ending<Result<State, RunError>>, ghost ws: seq<Write>)
      requires (store != null ==> store.Valid()) && sandbox.Did([])
      modifies this`events, store, sandbox
      ensures sandbox.Did(RunRequests(g, cfg, script, start).acts)
      ensures r.Panicked? <==> RunRequests(g, cfg, script, start).panicked
      ensures store != null ==> Wrote(old(store.log), ws)
      ensures var run := RunOf(g, cfg, script, start);
        match r
        case Returned(outcome) => outcome == run.outcome && events == old(events) + run.events && ws == run.writes
        case Panicked => Cut(run, ws, old(events), events)
    {
      hide Loop, RunOf, LoopRequests, Tagged, AllWritten, Own, sandbox.Did, Cut;
      ghost var log := if store != null then store.log else [];
      WroteNothing();
      if cfg.maxSteps == 0 {
        ZeroBudget(g, cfg, script, start);
        return Returned(Failure(InvalidConfig)), [];
      }
      RunOfUnfolds(g, cfg, script, start);
      Emit(Opening(g, start));
      match start {
        case Fresh(task) => r, ws := RunLoop(g, script, 0, [g.entry], New(task), sandbox, log);
        case Resume(cp) => r, ws := RunLoop(g, script, cp.step, cp.frontier, cp.state, sandbox, log);
      }
      if r.Panicked? {
        CutOpened(Opening(g, start), FirstLoop(g, cfg, script, start), RunOf(g, cfg, script, start), ws, old(events), events);
      }
    }

    /** Runs the graph on behalf of a caller, fresh or resumed, with its own sandbox manager. The
        run's own row takes the run's writes in order, and no other run's row changes. However the
        run ends, also by a panic, by the time it has ended every environment that any attempt
        was granted has had exactly one destroy attempt; what the backend made besides is what a
        panic abandoned. */
    method Execute(g: Graph, start: Start, script: Script)
      returns (r: Ending<Result<State, RunError>>, ghost ws: seq<Write>, ghost acts: seq<Act>)
      requires store != null ==> store.Valid()
      modifies this`events, store
      ensures store != null ==> store.Valid()
      ensures r.Panicked? <==> RunRequests(g, cfg, script, start).panicked
      ensures var run := RunOf(g, cfg, script, start);
        match r
        case Returned(outcome) => outcome == run.outcome && events == old(events) + run.events && ws == run.writes
        case Panicked => Cut(run, ws, old(events), events)
      ensures store != null && runId.Some? ==>
        && store.Get(runId.value) == AllWritten(old(store.Get(runId.value)), ws)
        && forall other | other != runId.value :: store.Get(other) == old(store.Get(other))
      ensures store != null && runId.Some? && start.Fresh? && old(store.Get(runId.value)).None? ==>
        Recovery.Begins(g, cfg, script, start.task, store.Get(runId.value))
      ensures store != null && runId.None? ==> store.log == old(store.log)
      ensures var asked := RunRequests(g, cfg, script, start).acts;
        && Destroys(acts) == Grants(acts) == Grants(asked)
        && Created(acts) == Destroys(acts) + Abandons(asked)
    {
      hide RunOf, RunRequests, Grants, Destroys, Abandons, Cut;
      var sandbox := new Sandboxes();
      r, ws := RunGraph(g, start, script, sandbox);
      sandbox.CleanupAll(RunRequests(g, cfg, script, start).acts);
      acts := sandbox.log;
      if store != null && runId.Some? {
        store.Grown(old(store.log), runId.value, ws);
        if start.Fresh? {
          if r.Panicked? {
            Recovery.PanicWrites(RunOf(g, cfg, script, start), ws, old(events), events);
          }
          Recovery.BegunBySession(g, cfg, script, start.task, ws);
        }
      }
    }

    /** Loads this run's checkpoint, refuses one that cannot be read, a finished run or another
        blueprint's snapshot, and otherwise continues from it. A refusal writes and emits
        nothing. */
    method ResumeRun(g: Graph, script: Script, loadOk: bool) returns (r: Ending<Result<State, ResumeError>>)
      requires store != null ==> store.Valid()
      modifies this`events, store
      ensures (r.Returned? && r.value.Failure? && !r.value.error.RunFailed?) ==>
        events == old(events) && (store != null ==> store.rows == old(store.rows))
      ensures r == Returned(Failure(NoCheckpoint)) <==>
        store == null || runId.None? || (loadOk && runId.value !in old(store.rows))
      ensures r == Returned(Failure(LoadFailed)) <==> store != null && runId.Some? && !loadOk
      ensures store != null && runId.Some? && loadOk && runId.value in old(store.rows) ==>
        var row := old(store.rows)[runId.value];
        if !row.status.IsResumable() then r == Returned(Failure(AlreadyFinished))
        else if row.checkpoint.blueprint != cfg.blueprint then r == Returned(Failure(OtherBlueprint))
        else Resumed(g, script, row, old(events), r)
      ensures store != null ==> forall other | runId != Some(other) :: store.Get(other) == old(store.Get(other))
      ensures store != null && runId.Some? && loadOk ==>
        Recovery.Resumes(g, cfg, script, old(store.Get(runId.value)), store.Get(runId.value))
    {
      hide RunOf, RunRequests, Cut, AllWritten, Grants, Destroys, Abandons;
      if store == null || runId.None? {
        return Returned(Failure(NoCheckpoint));
      }
      if !loadOk {
        return Returned(Failure(LoadFailed));
      }
      var found := store.Get(runId.value);
      if found.None? || !found.value.status.IsResumable() || found.value.checkpoint.blueprint != cfg.blueprint {
        Recovery.RefusedBySession(g, cfg, script, found);
      }
      if found.None? {
        return Returned(Failure(NoCheckpoint));
      }
      var row := found.value;
      if !row.status.IsResumable() {
        return Returned(Failure(AlreadyFinished));
      }
      if row.checkpoint.blueprint != cfg.blueprint {
        return Returned(Failure(OtherBlueprint));
      }
      var ending, ws, _ := Execute(g, Resume(row.checkpoint), script);
      if ending.Panicked? {
        Recovery.PanicWrites(RunOf(g, cfg, script, Resume(row.checkpoint)), ws, old(events), events);
      }
      Recovery.ResumedBySession(g, cfg, script, row, ws);
      if ending.Panicked? {
        return Panicked;
      }
      return Returned(if ending.value.Success? then Success(ending.value.value) else Failure(RunFailed(ending.value.error)));
    }

    /** The run has been continued from its row: to its end, or up to a panic. */
    ghost predicate Resumed(g: Graph, script: Script, row: Row, before: seq<Event>, r: Ending<Result<State, ResumeError>>)
      requires store != null && runId.Some?
      reads this, store
    {
      var run := RunOf(g, cfg, script, Resume(row.checkpoint));
      match r
      case Returned(result) => (
        && store.Get(runId.value) == AllWritten(Some(row), run.writes)
        && events == before + run.events
        && result == if run.outcome.Success? then Success(run.outcome.value) else Failure(RunFailed(run.outcome.error)))
      case Panicked => exists ws :: Cut(run, ws, before, events) && store.Get(runId.value) == AllWritten(Some(row), ws)
    }
  }

  lemma CutHere(save: Write, retries: seq<Event>, after: Run, before: seq<Event>, events: seq<Event>)
    requires after.writes != [] && before <= events <= before + retries
    ensures Cut(Prepend([save], retries, after), [save], before, events)
  {
    assert before + (retries + after.events) == (before + retries) + after.events;
  }

  lemma CutPrepended(ws: seq<Write>, es: seq<Event>, run: Run, ws': seq<Write>,
                     before: seq<Event>, middle: seq<Event>, events: seq<Event>)
    requires middle == before + es && Cut(run, ws', middle, events)
    ensures Cut(Prepend(ws, es, run), ws + ws', before, events)
  {
    assert before + (es + run.events) == (before + es) + run.events;
  }

  lemma CutOpened(opening: Event, loop: Run, run: Run, ws: seq<Write>, before: seq<Event>, events: seq<Event>)
    requires run.writes == loop.writes && run.events == [opening] + loop.events
    requires Cut(loop, ws, before + [opening], events)
    ensures Cut(run, ws, before, events)
  {
    assert before + ([opening] + loop.events) == (before + [opening]) + loop.events;
  }

  lemma AddTwo(a: seq<Act>, b: seq<Act>, c: seq<Act>)
    ensures a + b + c == a + (b + c)
  {
  }

  lemma AddThree(a: seq<Act>, b: seq<Act>, c: seq<Act>, d: seq<Act>)
    ensures a + b + c + d == a + (b + c + d)
  {
  }

  lemma ThenTwice(a: seq<Act>, b: Requests, later: Requests)
    ensures Then(Requests(a, false), Then(b, later)) == Then(Requests(a + b.acts, false), later)
  {
    AddTwo(a, b.acts, later.acts);
  }

  lemma AllToDo(run: Run, asked: Requests)
    ensures run == Prepend([], [], run) && asked == Then(Requests([], false), asked)
  {
    assert [] + run.writes == run.writes && [] + run.events == run.events && [] + asked.acts == asked.acts;
  }

  lemma PrependAdds(ws: seq<Write>, es: seq<Event>, rest: Run)
    ensures Prepend(ws, es, rest) == Run(ws + rest.writes, es + rest.events, rest.outcome)
  {
  }

  lemma PartsAdd(ws: seq<Write>, es: seq<Event>, rest: Run, acts: seq<Act>, asked: Requests)
    ensures Prepend(ws, es, rest) == Run(ws + rest.writes, es + rest.events, rest.outcome)
    ensures Then(Requests(acts, false), asked) == Requests(acts + asked.acts, asked.panicked)
  {
  }

  lemma ZeroBudget(g: Graph, cfg: Config, script: Script, start: Start)
    requires cfg.maxSteps == 0
    ensures RunOf(g, cfg, script, start) == Run([], [], Failure(InvalidConfig))
  {
  }

  lemma NothingApplied(s: State)
    ensures ApplyAll(s, []) == s && !AnyStatus([]) && !AnyFailed([])
  {
  }

  lemma ApplyAllSnoc(s: State, us: seq<Update>, u: Update)
    ensures ApplyAll(s, us + [u]) == ApplyAll(s, us).Apply(u)
  {
    assert (us + [u])[..|us|] == us;
  }

  lemma AnySnoc(us: seq<Update>, u: Update)
    ensures AnyStatus(us + [u]) <==> AnyStatus(us) || u.status.Some?
    ensures AnyFailed(us + [u]) <==> AnyFailed(us) || u.status == Some(Status.Failed)
  {
    var all := us + [u];
    assert all[|us|] == u;
    assert forall i | 0 <= i < |us| :: all[i] == us[i];
  }
}
