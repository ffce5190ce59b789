/** Which environments a run asks for: over all its attempts, kept or discarded, and up to a
    panic if a node panics. */
module Provisioning {
  import opened Wrappers
  import opened Names
  import opened Channels
  import opened Graphs
  import opened SuperSteps
  import opened Runs
  import opened Sandboxes

  /** What reached the backend, and whether a panic cut it short. */
  datatype Requests = Requests(acts: seq<Act>, panicked: bool)

  const NO_REQUESTS := Requests([], false)

  function Then(first: Requests, later: Requests): Requests {
    Requests(first.acts + later.acts, later.panicked)
  }

  /** A node's requests, each answered in turn. */
  function Asked(answers: seq<Option<string>>): seq<Act> {
    if answers == [] then []
    else [if answers[0].Some? then Granted(answers[0].value) else Refused] + Asked(answers[1..])
  }

  /** What a node had asked for when a panic struck, without the request still in flight. */
  function AnsweredAt(a: Attempt, p: Panic, name: string): seq<Act> {
    var answers := a.answers(name);
    Asked(if p.answered(name) < |answers| then answers[..p.answered(name)] else answers)
  }

  /** The environment that the backend made, or makes, for a node's request in flight. */
  function InFlightAt(p: Panic, name: string, faulty: string): seq<Act> {
    if name != faulty && p.inFlight(name).Some? then [Abandoned(p.inFlight(name).value)] else []
  }

  /** A panic in `faulty` drops every pending sibling where it stands. */
  function PanicActs(a: Attempt, p: Panic, pending: seq<string>, faulty: string): seq<Act> {
    if pending == [] then []
    else AnsweredAt(a, p, pending[0]) + InFlightAt(p, pending[0], faulty) + PanicActs(a, p, pending[1..], faulty)
  }

  function JoinRequests(a: Attempt, pending: seq<string>, completed: nat): Requests
    decreases |pending|
  {
    if pending == [] then NO_REQUESTS
    else
      var i := Chosen(a, pending);
      if a.panic.Some? && a.panic.value.at == completed then
        Requests(PanicActs(a, a.panic.value, pending, pending[i]), true)
      else
        Then(Requests(Asked(a.answers(pending[i])), false), JoinRequests(a, Without(pending, i), completed + 1))
  }

  /** One attempt: nothing is asked for when a name is unknown. */
  function AttemptRequests(g: Graph, a: Attempt, names: seq<string>): Requests {
    if FirstMissing(g, names).Some? then NO_REQUESTS else JoinRequests(a, names, 0)
  }

  /** All attempts at a super-step. */
  function TryRequests(g: Graph, cfg: Config, script: Script, step: nat, names: seq<string>, s: State, k: nat): Requests
    requires k <= cfg.maxRetries
    decreases cfg.maxRetries - k
  {
    var a := script.attempt(step, k);
    var first := AttemptRequests(g, a, names);
    if first.panicked || Try(g, a, names, s).Success? || a.cancelAt.Some? || k >= cfg.maxRetries || a.cancelBackoff
    then first
    else Then(first, TryRequests(g, cfg, script, step, names, s, k + 1))
  }

  /** The attempts before the `k`th have left these retry events and these acts. */
  ghost predicate SoFar(g: Graph, cfg: Config, script: Script, step: nat, names: seq<string>, s: State, k: nat,
                        retries: seq<Event>, acts: seq<Act>)
  {
    && k <= cfg.maxRetries
    && var rest, asked := TryUntil(g, cfg, script, step, names, s, k), TryRequests(g, cfg, script, step, names, s, k);
    && TryUntil(g, cfg, script, step, names, s, 0) == Tried(retries + rest.retries, rest.verdict)
    && TryRequests(g, cfg, script, step, names, s, 0) == Requests(acts + asked.acts, asked.panicked)
  }

  lemma NothingSoFar(g: Graph, cfg: Config, script: Script, step: nat, names: seq<string>, s: State)
    ensures SoFar(g, cfg, script, step, names, s, 0, [], [])
  {
    hide TryUntil, TryRequests;
    var tried, asked := TryUntil(g, cfg, script, step, names, s, 0), TryRequests(g, cfg, script, step, names, s, 0);
    assert [] + tried.retries == tried.retries && [] + asked.acts == asked.acts;
  }

  /** The attempts end as given. */
  ghost predicate EndsAs(g: Graph, cfg: Config, script: Script, step: nat, names: seq<string>, s: State,
                         retries: seq<Event>, verdict: Verdict, acts: seq<Act>)
  {
    && TryUntil(g, cfg, script, step, names, s, 0) == Tried(retries, verdict)
    && TryRequests(g, cfg, script, step, names, s, 0) == Requests(acts, false)
  }

  /** One more attempt: a panic, the end, or a retry. */
  lemma AttemptUnfolds(g: Graph, cfg: Config, script: Script, step: nat, names: seq<string>, s: State, k: nat,
                       retries: seq<Event>, acts: seq<Act>)
    requires SoFar(g, cfg, script, step, names, s, k, retries, acts)
    ensures var a := script.attempt(step, k);
      var asked, result := AttemptRequests(g, a, names), Try(g, a, names, s);
      var acts' := acts + asked.acts;
      if asked.panicked then
        && TryRequests(g, cfg, script, step, names, s, 0) == Requests(acts', true)
        && retries <= TryUntil(g, cfg, script, step, names, s, 0).retries
      else if result.Success? then
        EndsAs(g, cfg, script, step, names, s, retries, Advanced(result.value, a.cancelAt.Some?), acts')
      else
        var retried := retries + [SuperStepRetried(step + 1, k + 1, result.error)];
        if a.cancelAt.Some? then EndsAs(g, cfg, script, step, names, s, retries, Interrupted, acts')
        else if k >= cfg.maxRetries then EndsAs(g, cfg, script, step, names, s, retries, Exhausted(result.error), acts')
        else if a.cancelBackoff then EndsAs(g, cfg, script, step, names, s, retried, Interrupted, acts')
        else SoFar(g, cfg, script, step, names, s, k + 1, retried, acts')
  {
    hide Try, AttemptRequests;
    assert retries + [] == retries;
    if k < cfg.maxRetries {
      var rest, asked := TryUntil(g, cfg, script, step, names, s, k + 1), TryRequests(g, cfg, script, step, names, s, k + 1);
      var first := AttemptRequests(g, script.attempt(step, k), names);
      assert acts + (first.acts + asked.acts) == (acts + first.acts) + asked.acts;
      match Try(g, script.attempt(step, k), names, s)
      case Success(_) =>
      case Failure(e) =>
        var retried := SuperStepRetried(step + 1, k + 1, e);
        assert retries + ([retried] + rest.retries) == (retries + [retried]) + rest.retries;
    }
  }

  /** Where a run goes on after the attempts at a super-step, if it does. */
  function NextAfter(g: Graph, step: nat, verdict: Verdict): Option<(seq<string>, State)> {
    if !verdict.Advanced? || verdict.cancelled then None
    else match RouteFrom(g, step, verdict.stepped.ran, verdict.stepped.state).next
      case Failure(_) => None
      case Success(next) => Some((next, verdict.stepped.state))
  }

  function LoopRequests(g: Graph, cfg: Config, script: Script, step: nat, frontier: seq<string>, s: State): Requests
    decreases cfg.maxSteps - step
  {
    var names := Canonical(frontier);
    if step >= cfg.maxSteps || names == [] then NO_REQUESTS
    else
      var tried := TryRequests(g, cfg, script, step, names, s, 0);
      if tried.panicked then tried
      else match NextAfter(g, step, TryUntil(g, cfg, script, step, names, s, 0).verdict)
        case None => tried
        case Some((next, state)) => Then(tried, LoopRequests(g, cfg, script, step + 1, next, state))
  }

  /** A whole run. */
  function RunRequests(g: Graph, cfg: Config, script: Script, start: Start): Requests {
    if cfg.maxSteps == 0 then NO_REQUESTS
    else match start
      case Fresh(task) => LoopRequests(g, cfg, script, 0, [g.entry], New(task))
      case Resume(cp) => LoopRequests(g, cfg, script, cp.step, cp.frontier, cp.state)
  }

  lemma LoopRequestsUnfold(g: Graph, cfg: Config, script: Script, step: nat, frontier: seq<string>, s: State)
    ensures var names := Canonical(frontier);
      var whole := LoopRequests(g, cfg, script, step, frontier, s);
      if step >= cfg.maxSteps || names == [] then whole == NO_REQUESTS
      else
        var tried := TryRequests(g, cfg, script, step, names, s, 0);
        var after := NextAfter(g, step, TryUntil(g, cfg, script, step, names, s, 0).verdict);
        whole == if tried.panicked || after.None? then tried
                 else Then(tried, LoopRequests(g, cfg, script, step + 1, after.value.0, after.value.1))
  {
    hide TryRequests, TryUntil, NextAfter;
  }

  // ----- nothing a node is granted goes unnoticed -----

  /** What an attempt's nodes are granted, in whatever order they complete. */
  function GrantedTo(a: Attempt, names: seq<string>): multiset<string> {
    if names == [] then multiset{} else Grants(Asked(a.answers(names[0]))) + GrantedTo(a, names[1..])
  }

  lemma {:induction false} AskedIsAnswered(answers: seq<Option<string>>)
    ensures Abandons(Asked(answers)) == multiset{} == Destroys(Asked(answers))
  {
    if answers != [] {
      AskedIsAnswered(answers[1..]);
      var first := if answers[0].Some? then Granted(answers[0].value) else Refused;
      OneAct(first);
      ActsConcat([first], Asked(answers[1..]));
    }
  }

  lemma {:induction false} GrantedWithout(a: Attempt, names: seq<string>, i: nat)
    requires i < |names|
    ensures GrantedTo(a, names) == Grants(Asked(a.answers(names[i]))) + GrantedTo(a, Without(names, i))
  {
    hide Asked, Grants;
    if i == 0 {
      assert Without(names, 0) == names[1..];
    } else {
      GrantedWithout(a, names[1..], i - 1);
      assert Without(names, i)[1..] == Without(names[1..], i - 1);
    }
  }

  /** An attempt in which no node panics asks for everything its nodes ask for, whether it succeeds,
      fails or is cancelled, and in whatever order they complete; nothing is abandoned. */
  lemma {:induction false} JoinAsksForAll(a: Attempt, pending: seq<string>, completed: nat)
    requires a.panic.Some? ==> a.panic.value.at < completed || a.panic.value.at >= completed + |pending|
    ensures var r := JoinRequests(a, pending, completed);
      !r.panicked && Grants(r.acts) == GrantedTo(a, pending) && Abandons(r.acts) == multiset{}
    decreases |pending|
  {
    hide Asked, Grants, Abandons, Destroys;
    if pending == [] {
      NoActs();
    } else {
      var i := Chosen(a, pending);
      JoinAsksForAll(a, Without(pending, i), completed + 1);
      GrantedWithout(a, pending, i);
      AskedIsAnswered(a.answers(pending[i]));
      ActsConcat(Asked(a.answers(pending[i])), JoinRequests(a, Without(pending, i), completed + 1).acts);
    }
  }

  lemma NoActs()
    ensures Grants([]) == Abandons([]) == Destroys([]) == multiset{}
  {
  }

  /** What the attempts from `first` up to `last` at one super-step are granted. */
  function GrantedOver(script: Script, step: nat, names: seq<string>, first: nat, last: nat): multiset<string>
    requires first <= last
    decreases last - first
  {
    if first == last then multiset{}
    else GrantedTo(script.attempt(step, first), names) + GrantedOver(script, step, names, first + 1, last)
  }

  /** The environments of discarded attempts count like those of the one that is kept: a super-step
      is granted exactly what all its failed attempts are granted, and what its last attempt is
      granted, up to a panic if it panics. Only that attempt can abandon anything. */
  lemma {:induction false} DiscardedAttemptsCount(
      g: Graph, cfg: Config, script: Script, step: nat, names: seq<string>, s: State, k: nat) returns (last: nat)
    requires k <= cfg.maxRetries && AllKnown(g, names)
    ensures k <= last <= cfg.maxRetries
    ensures forall i | k <= i < last :: Try(g, script.attempt(step, i), names, s).Failure?
    ensures var all, end := TryRequests(g, cfg, script, step, names, s, k), JoinRequests(script.attempt(step, last), names, 0);
      && all.panicked == end.panicked
      && Grants(all.acts) == GrantedOver(script, step, names, k, last) + Grants(end.acts)
      && Abandons(all.acts) == Abandons(end.acts)
      && (!end.panicked ==> Grants(end.acts) == GrantedTo(script.attempt(step, last), names) && Abandons(end.acts) == multiset{})
    decreases cfg.maxRetries - k
  {
    hide Try, JoinRequests, Grants, Abandons, Destroys, GrantedTo;
    var a := script.attempt(step, k);
    NotPanickedIsCalm(a, names, 0);
    if !JoinRequests(a, names, 0).panicked {
      JoinAsksForAll(a, names, 0);
    }
    last := k;
    if !JoinRequests(a, names, 0).panicked && Try(g, a, names, s).Failure? && a.cancelAt.None? && k < cfg.maxRetries && !a.cancelBackoff {
      last := DiscardedAttemptsCount(g, cfg, script, step, names, s, k + 1);
      ActsConcat(JoinRequests(a, names, 0).acts, TryRequests(g, cfg, script, step, names, s, k + 1).acts);
    }
  }

  lemma {:induction false} NotPanickedIsCalm(a: Attempt, pending: seq<string>, completed: nat)
    ensures JoinRequests(a, pending, completed).panicked <==>
      a.panic.Some? && completed <= a.panic.value.at < completed + |pending|
    decreases |pending|
  {
    hide PanicActs;
    if pending != [] {
      NotPanickedIsCalm(a, Without(pending, Chosen(a, pending)), completed + 1);
    }
  }

  // ----- what a panic can leave behind -----

  /** Over a whole run nothing is abandoned but by the one attempt that panics. */
  lemma {:induction false} OnlyThePanicAbandons(g: Graph, cfg: Config, script: Script, step: nat, frontier: seq<string>, s: State)
    returns (a: Attempt, names: seq<string>)
    ensures var r := LoopRequests(g, cfg, script, step, frontier, s);
      if r.panicked then a.panic.Some? && JoinRequests(a, names, 0).panicked && Abandons(r.acts) == Abandons(JoinRequests(a, names, 0).acts)
      else Abandons(r.acts) == multiset{}
    decreases cfg.maxSteps - step
  {
    hide TryRequests, TryUntil, NextAfter, LoopRequests, JoinRequests, Grants, Abandons, Destroys;
    NoActs();
    LoopRequestsUnfold(g, cfg, script, step, frontier, s);
    names := Canonical(frontier);
    a := script.attempt(step, 0);
    if step < cfg.maxSteps && names != [] {
      var tried := TryRequests(g, cfg, script, step, names, s, 0);
      var after := NextAfter(g, step, TryUntil(g, cfg, script, step, names, s, 0).verdict);
      if AllKnown(g, names) {
        var last := DiscardedAttemptsCount(g, cfg, script, step, names, s, 0);
        a := script.attempt(step, last);
        NotPanickedIsCalm(a, names, 0);
      } else {
        UnknownAsksNothing(g, cfg, script, step, names, s, 0);
      }
      if !tried.panicked && after.Some? {
        a, names := OnlyThePanicAbandons(g, cfg, script, step + 1, after.value.0, after.value.1);
        ActsConcat(tried.acts, LoopRequests(g, cfg, script, step + 1, after.value.0, after.value.1).acts);
      }
    }
  }

  lemma {:induction false} UnknownAsksNothing(g: Graph, cfg: Config, script: Script, step: nat, names: seq<string>, s: State, k: nat)
    requires k <= cfg.maxRetries && !AllKnown(g, names)
    ensures TryRequests(g, cfg, script, step, names, s, k) == NO_REQUESTS
    decreases cfg.maxRetries - k
  {
    if k < cfg.maxRetries {
      UnknownAsksNothing(g, cfg, script, step, names, s, k + 1);
    }
  }

  /** A panic abandons exactly the environments of its siblings' requests in flight, so it leaves
      nothing behind if and only if no sibling was in the middle of a request. */
  lemma {:induction false} PanicAbandonsIff(a: Attempt, p: Panic, pending: seq<string>, faulty: string)
    ensures Abandons(PanicActs(a, p, pending, faulty)) == multiset{} <==>
      forall name | name in pending && name != faulty :: p.inFlight(name).None?
  {
    hide Grants, Destroys, Asked;
    if pending == [] {
      NoActs();
    } else {
      var first, rest := pending[0], PanicActs(a, p, pending[1..], faulty);
      PanicAbandonsIff(a, p, pending[1..], faulty);
      var answers := a.answers(first);
      AskedIsAnswered(if p.answered(first) < |answers| then answers[..p.answered(first)] else answers);
      InFlightAbandons(p, first, faulty);
      hide Abandons, AnsweredAt, InFlightAt;
      assert AnsweredAt(a, p, first) == Asked(if p.answered(first) < |answers| then answers[..p.answered(first)] else answers) by { AnsweredIs(a, p, first); }
      ActsConcat(AnsweredAt(a, p, first), InFlightAt(p, first, faulty));
      ActsConcat(AnsweredAt(a, p, first) + InFlightAt(p, first, faulty), rest);
      assert forall name | name in pending :: name == first || name in pending[1..];
    }
  }

  lemma AnsweredIs(a: Attempt, p: Panic, name: string)
    ensures var answers := a.answers(name);
      AnsweredAt(a, p, name) == Asked(if p.answered(name) < |answers| then answers[..p.answered(name)] else answers)
  {
  }

  lemma InFlightAbandons(p: Panic, name: string, faulty: string)
    ensures Abandons(InFlightAt(p, name, faulty)) == multiset{} <==> name == faulty || p.inFlight(name).None?
  {
    if name != faulty && p.inFlight(name).Some? {
      OneAct(Abandoned(p.inFlight(name).value));
      assert p.inFlight(name).value in OneIf(true, Abandoned(p.inFlight(name).value));
    }
  }

  /** The nodes still pending when the panic strikes, the panicking one among them. */
  function PendingAtPanic(a: Attempt, pending: seq<string>, completed: nat): (r: seq<string>)
    requires a.panic.Some? && JoinRequests(a, pending, completed).panicked
    ensures r != []
    decreases |pending|
  {
    if a.panic.value.at == completed then pending
    else PendingAtPanic(a, Without(pending, Chosen(a, pending)), completed + 1)
  }

  /** What a panicking attempt leaves behind, exactly: nothing, if and only if no sibling that is
      pending at the panic is in the middle of a request. */
  lemma {:induction false} AttemptAbandonsIff(a: Attempt, pending: seq<string>, completed: nat)
    requires a.panic.Some? && JoinRequests(a, pending, completed).panicked
    ensures var left := PendingAtPanic(a, pending, completed);
      var faulty := left[Chosen(a, left)];
      Abandons(JoinRequests(a, pending, completed).acts) == multiset{} <==>
        forall name | name in left && name != faulty :: a.panic.value.inFlight(name).None?
    decreases |pending|
  {
    hide PanicActs, Grants, Abandons, Destroys, Asked;
    var i := Chosen(a, pending);
    if a.panic.value.at == completed {
      PanicAbandonsIff(a, a.panic.value, pending, pending[i]);
    } else {
      AttemptAbandonsIff(a, Without(pending, i), completed + 1);
      AskedIsAnswered(a.answers(pending[i]));
      ActsConcat(Asked(a.answers(pending[i])), JoinRequests(a, Without(pending, i), completed + 1).acts);
    }
  }

  /** Such a run exists: a node panics while its sibling waits for an environment. */
  lemma ASiblingCanBeAbandoned() returns (a: Attempt)
    ensures a.panic.Some? && JoinRequests(a, ["a", "b"], 0).panicked
    ensures Abandons(JoinRequests(a, ["a", "b"], 0).acts) != multiset{}
  {
    var p := Panic(0, name => 0, name => if name == "b" then Some("box") else None);
    a := Attempt(pending => 0, None, name => None, name => Errored(""), false, name => [], Some(p));
    var pending := ["a", "b"];
    assert pending[1] == "b" && "b" != pending[0];
    AttemptAbandonsIff(a, pending, 0);
  }

  // ----- the condition that a blueprint's author can check -----

  /** With at most one node in the frontier there is no sibling to abandon. */
  lemma OneNodeAbandonsNothing(a: Attempt, names: seq<string>)
    requires |names| <= 1
    ensures Abandons(JoinRequests(a, names, 0).acts) == multiset{}
  {
    NotPanickedIsCalm(a, names, 0);
    if JoinRequests(a, names, 0).panicked {
      AttemptAbandonsIff(a, names, 0);
    } else {
      JoinAsksForAll(a, names, 0);
    }
  }

  /** With two there can be: the first panics while the second waits for an environment. */
  lemma TwoNodesCanAbandon(names: seq<string>) returns (a: Attempt)
    requires |names| > 1 && names[0] != names[1]
    ensures Abandons(JoinRequests(a, names, 0).acts) != multiset{}
  {
    var second := names[1];
    var p := Panic(0, name => 0, name => if name == second then Some("box") else None);
    a := Attempt(pending => 0, None, name => None, name => Errored(""), false, name => [], Some(p));
    assert Chosen(a, names) == 0 && PendingAtPanic(a, names, 0) == names && second in names;
    assert a.panic.value.inFlight(second).Some?;
    AttemptAbandonsIff(a, names, 0);
  }

  /** A super-step can leave an environment behind exactly when its frontier has more than one
      node. */
  lemma SuperStepCanAbandonIff(frontier: seq<string>)
    ensures |Canonical(frontier)| > 1 <==>
      exists a: Attempt :: Abandons(JoinRequests(a, Canonical(frontier), 0).acts) != multiset{}
  {
    var names := Canonical(frontier);
    if |names| > 1 {
      LessTotal(names[0], names[1]);
      var _ := TwoNodesCanAbandon(names);
    } else {
      forall a: Attempt ensures Abandons(JoinRequests(a, names, 0).acts) == multiset{} {
        OneNodeAbandonsNothing(a, names);
      }
    }
  }

  /** No frontier of the run holds more than one node. */
  ghost predicate Narrow(g: Graph, cfg: Config, script: Script, step: nat, frontier: seq<string>, s: State)
    decreases cfg.maxSteps - step
  {
    var names := Canonical(frontier);
    step < cfg.maxSteps && names != [] ==>
      && |names| == 1
      && match NextAfter(g, step, TryUntil(g, cfg, script, step, names, s, 0).verdict)
         case None => true
         case Some((next, state)) => Narrow(g, cfg, script, step + 1, next, state)
  }

  /** Such a run leaves nothing behind, whatever panics. */
  lemma {:induction false} NarrowRunAbandonsNothing(g: Graph, cfg: Config, script: Script, step: nat, frontier: seq<string>, s: State)
    requires Narrow(g, cfg, script, step, frontier, s)
    ensures Abandons(LoopRequests(g, cfg, script, step, frontier, s).acts) == multiset{}
    decreases cfg.maxSteps - step
  {
    hide TryRequests, TryUntil, NextAfter, LoopRequests, Grants, Abandons, Destroys, JoinRequests;
    NoActs();
    LoopRequestsUnfold(g, cfg, script, step, frontier, s);
    var names := Canonical(frontier);
    if step < cfg.maxSteps && names != [] {
      var tried := TryRequests(g, cfg, script, step, names, s, 0);
      var after := NextAfter(g, step, TryUntil(g, cfg, script, step, names, s, 0).verdict);
      if AllKnown(g, names) {
        var last := DiscardedAttemptsCount(g, cfg, script, step, names, s, 0);
        OneNodeAbandonsNothing(script.attempt(step, last), names);
      } else {
        UnknownAsksNothing(g, cfg, script, step, names, s, 0);
      }
      if after.Some? {
        NarrowRunAbandonsNothing(g, cfg, script, step + 1, after.value.0, after.value.1);
        ActsConcat(tried.acts, LoopRequests(g, cfg, script, step + 1, after.value.0, after.value.1).acts);
      }
    }
  }

  /** A blueprint without fan-out: no node has more than one live successor. */
  ghost predicate Linear(g: Graph) {
    forall node, s: State :: |Canonical(Live(g.Targets(node, s)))| <= 1
  }

  lemma {:induction false} AdvancedRanAll(g: Graph, cfg: Config, script: Script, step: nat, names: seq<string>, s: State, k: nat)
    requires k <= cfg.maxRetries
    ensures var verdict := TryUntil(g, cfg, script, step, names, s, k).verdict;
      verdict.Advanced? ==> |verdict.stepped.ran| == |names|
    decreases cfg.maxRetries - k
  {
    if k < cfg.maxRetries {
      AdvancedRanAll(g, cfg, script, step, names, s, k + 1);
    }
  }

  /** Its runs are narrow, whatever their script. */
  lemma {:induction false} LinearIsNarrow(g: Graph, cfg: Config, script: Script, step: nat, frontier: seq<string>, s: State)
    requires Linear(g) && |Canonical(frontier)| <= 1
    ensures Narrow(g, cfg, script, step, frontier, s)
    decreases cfg.maxSteps - step
  {
    hide TryUntil, Canonical;
    var names := Canonical(frontier);
    if step < cfg.maxSteps && names != [] {
      AdvancedRanAll(g, cfg, script, step, names, s, 0);
      var verdict := TryUntil(g, cfg, script, step, names, s, 0).verdict;
      var after := NextAfter(g, step, verdict);
      if after.Some? {
        RouteOfOne(g, step, verdict.stepped.ran, verdict.stepped.state);
        assert |Canonical(Live(g.Targets(verdict.stepped.ran[0].name, verdict.stepped.state)))| <= 1;
        LinearIsNarrow(g, cfg, script, step + 1, after.value.0, after.value.1);
      }
    }
  }

  lemma RouteOfOne(g: Graph, step: nat, ran: seq<Ran>, s: State)
    requires |ran| == 1
    ensures var next := RouteFrom(g, step, ran, s).next;
      next.Success? ==> next.value == Live(g.Targets(ran[0].name, s))
  {
    assert ran[1..] == [];
    assert RouteFrom(g, step, ran[1..], s).next == Success([]);
    assert Live(g.Targets(ran[0].name, s)) + [] == Live(g.Targets(ran[0].name, s));
  }

  /** Every run of a blueprint without fan-out leaves nothing behind: the documented promise holds
      for it, panics and all. */
  lemma LinearBlueprintAbandonsNothing(g: Graph, cfg: Config, script: Script, task: string)
    requires Linear(g)
    ensures Abandons(RunRequests(g, cfg, script, Fresh(task)).acts) == multiset{}
  {
    hide Linear, LoopRequests, Abandons;
    NoActs();
    assert [g.entry][1..] == [];
    assert |Canonical([g.entry])| == 1;
    if cfg.maxSteps > 0 {
      LinearIsNarrow(g, cfg, script, 0, [g.entry], New(task));
      NarrowRunAbandonsNothing(g, cfg, script, 0, [g.entry], New(task));
    }
  }
}
