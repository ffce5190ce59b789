/** One super-step: the whole frontier runs against one snapshot, then merges or is discarded. */
module SuperSteps {
  import opened Wrappers
  import opened Names
  import opened Channels
  import opened Graphs

  /** Everything the outside world decides during one attempt at a super-step.
      `pick` says which of the pending nodes completes next; the run's token trips once
      `cancelAt` nodes have completed; `hiccup` is a transient hard error of a node; `junk` is
      whatever a node returns once its token is cancelled; `cancelBackoff` says whether the
      token trips during the pause before the next attempt; `answers` is what the sandbox backend
      answers to each node's requests; `panic` is a node's panic, if one panics. */
  datatype Attempt = Attempt(
    pick: seq<string> -> nat,
    cancelAt: Option<nat>,
    hiccup: string -> Option<string>,
    junk: string -> NodeReply,
    cancelBackoff: bool,
    answers: string -> seq<Option<string>>,
    panic: Option<Panic>)
  {
    predicate Tripped(completed: nat) {
      cancelAt.Some? && cancelAt.value <= completed
    }

    /** Neither a cancellation nor a transient error nor a panic. */
    ghost predicate Steady() {
      cancelAt.None? && !cancelBackoff && panic.None? && forall n :: hiccup(n).None?
    }
  }

  /** The node that would complete after `at` others panics instead. Each node that is still
      pending has had `answered` of its requests answered by then, and `inFlight` is the
      environment that the backend makes for the one it is waiting for. */
  datatype Panic = Panic(at: nat, answered: string -> nat, inFlight: string -> Option<string>)

  datatype StepError = UnknownNode(name: string) | NodeFailure(node: string, reason: string)

  /** What a node that ran leaves for the audit trail and for routing. */
  datatype Ran = Ran(name: string, status: Status, output: string)

  datatype Stepped = Stepped(state: State, ran: seq<Ran>)

  function Reply(g: Graph, a: Attempt, snapshot: State, name: string, completed: nat): NodeReply
    requires name in g.nodes
  {
    if a.Tripped(completed) then a.junk(name)
    else match a.hiccup(name)
      case Some(reason) => Errored(reason)
      case None => g.nodes[name](snapshot)
  }

  function Chosen(a: Attempt, pending: seq<string>): nat
    requires pending != []
    ensures Chosen(a, pending) < |pending|
  {
    a.pick(pending) % |pending|
  }

  function Without(pending: seq<string>, i: nat): (r: seq<string>)
    requires i < |pending|
    ensures |r| == |pending| - 1
    ensures forall n | n in r :: n in pending
    ensures forall n | n in pending :: n in r || n == pending[i]
  {
    pending[..i] + pending[i + 1..]
  }

  predicate AllKnown(g: Graph, names: seq<string>) {
    forall n | n in names :: n in g.nodes
  }

  /** Waits for every pending node in completion order; the first error wins. */
  function Join(g: Graph, a: Attempt, snapshot: State, pending: seq<string>, got: map<string, Update>, completed: nat)
    : (r: Result<map<string, Update>, StepError>)
    requires AllKnown(g, pending)
    ensures r.Success? ==> forall n | n in pending || n in got :: n in r.value
    decreases |pending|
  {
    if pending == [] then Success(got)
    else
      var i := Chosen(a, pending);
      match Reply(g, a, snapshot, pending[i], completed)
      case Errored(reason) => Failure(NodeFailure(pending[i], reason))
      case Done(u) => Join(g, a, snapshot, Without(pending, i), got[pending[i] := u], completed + 1)
  }

  /** The order in which the nodes complete. */
  function Completion(a: Attempt, pending: seq<string>): (order: seq<string>)
    ensures |order| == |pending|
    ensures forall n :: n in order <==> n in pending
    decreases |pending|
  {
    if pending == [] then []
    else
      var i := Chosen(a, pending);
      [pending[i]] + Completion(a, Without(pending, i))
  }

  /** The first `n` nodes of a completion order all answer. */
  ghost predicate AnswersUpTo(g: Graph, a: Attempt, s: State, order: seq<string>, completed: nat, n: nat)
    requires AllKnown(g, order) && n <= |order|
  {
    forall j | 0 <= j < n :: Reply(g, a, s, order[j], completed + j).Done?
  }

  /** The first node to complete with an error decides; without one, all have answered. */
  lemma {:induction false} FirstErrorWins(g: Graph, a: Attempt, s: State, pending: seq<string>, got: map<string, Update>, completed: nat)
    returns (i: nat)
    requires AllKnown(g, pending)
    ensures var order := Completion(a, pending);
      && i <= |order| && AnswersUpTo(g, a, s, order, completed, i)
      && match Join(g, a, s, pending, got, completed)
         case Success(_) => i == |order|
         case Failure(e) => i < |order| && e.NodeFailure? && e.node == order[i]
                            && Reply(g, a, s, order[i], completed + i) == Errored(e.reason)
    decreases |pending|
  {
    i := 0;
    if pending != [] {
      var c := Chosen(a, pending);
      var first, rest := pending[c], Without(pending, c);
      match Reply(g, a, s, first, completed)
      case Errored(_) =>
      case Done(u) =>
        i := FirstErrorWins(g, a, s, rest, got[first := u], completed + 1);
        AnswersOneMore(g, a, s, first, Completion(a, rest), completed, i);
        i := i + 1;
    }
  }

  lemma AnswersOneMore(g: Graph, a: Attempt, s: State, first: string, rest: seq<string>, completed: nat, n: nat)
    requires AllKnown(g, [first] + rest) && AllKnown(g, rest) && n <= |rest|
    requires Reply(g, a, s, first, completed).Done? && AnswersUpTo(g, a, s, rest, completed + 1, n)
    ensures AnswersUpTo(g, a, s, [first] + rest, completed, n + 1)
  {
    hide Reply;
    forall j | 0 <= j < n + 1 ensures Reply(g, a, s, ([first] + rest)[j], completed + j).Done? {
      assert j > 0 ==> Reply(g, a, s, rest[j - 1], completed + 1 + (j - 1)).Done?;
    }
  }

  /** The updates in frontier order, whatever order they arrived in. */
  function InOrder(names: seq<string>, got: map<string, Update>): (us: seq<Update>)
    requires forall n | n in names :: n in got
    ensures |us| == |names| && forall i | 0 <= i < |us| :: us[i] == got[names[i]]
  {
    if names == [] then [] else [got[names[0]]] + InOrder(names[1..], got)
  }

  /** The emitted text of a node, one line per transcript entry. */
  function Output(entries: seq<Entry>): string {
    if entries == [] then []
    else if |entries| == 1 then entries[0].text
    else entries[0].text + "\n" + Output(entries[1..])
  }

  /** The text of no entry is empty, that of one is its own, and every further entry adds a line. */
  lemma {:induction false} OutputLines(entries: seq<Entry>, e: Entry)
    ensures Output([]) == "" && Output([e]) == e.text
    ensures entries != [] ==> Output(entries + [e]) == Output(entries) + "\n" + e.text
  {
    if |entries| > 1 {
      OutputLines(entries[1..], e);
      assert (entries + [e])[1..] == entries[1..] + [e];
    }
  }

  function Account(name: string, u: Update): Ran {
    Ran(name, if u.status == Some(Failed) then Failed else Ok, Output(u.messages))
  }

  function Accounts(names: seq<string>, us: seq<Update>): (r: seq<Ran>)
    requires |names| == |us|
    ensures |r| == |names| && forall i | 0 <= i < |r| :: r[i] == Account(names[i], us[i])
  {
    if names == [] then [] else [Account(names[0], us[0])] + Accounts(names[1..], us[1..])
  }

  function Finish(s: State, names: seq<string>, us: seq<Update>): Stepped
    requires |names| == |us|
  {
    Stepped(Merge(s, us), Accounts(names, us))
  }

  function FirstMissing(g: Graph, names: seq<string>): (r: Option<string>)
    ensures r.None? <==> AllKnown(g, names)
    ensures r.Some? ==> r.value in names && r.value !in g.nodes
  {
    if names == [] then None
    else if names[0] !in g.nodes then Some(names[0])
    else FirstMissing(g, names[1..])
  }

  /** One attempt: resolve every name, run, then merge everything or nothing. */
  function Try(g: Graph, a: Attempt, names: seq<string>, s: State): Result<Stepped, StepError> {
    match FirstMissing(g, names)
    case Some(name) => Failure(UnknownNode(name))
    case None =>
      match Join(g, a, s, names, map[], 0)
      case Failure(e) => Failure(e)
      case Success(got) => Success(Finish(s, names, InOrder(names, got)))
  }

  // ----- what a super-step means, with no schedule in sight -----

  datatype Settled = Merged(stepped: Stepped) | Culprits(nodes: set<string>) | Missing(name: string)

  function Failing(g: Graph, names: seq<string>, s: State): set<string> {
    set n | n in names && n in g.nodes && g.nodes[n](s).Errored?
  }

  function Answers(g: Graph, names: seq<string>, s: State): (us: seq<Update>)
    requires AllKnown(g, names) && Failing(g, names, s) == {}
    ensures |us| == |names| && forall i | 0 <= i < |us| :: g.nodes[names[i]](s) == Done(us[i])
  {
    assert forall n | n in names :: n in Failing(g, names, s) || g.nodes[n](s).Done?;
    seq(|names|, i requires 0 <= i < |names| => g.nodes[names[i]](s).update)
  }

  /** The outcome of a super-step as a function of the graph, the frontier and the state. */
  function Settle(g: Graph, names: seq<string>, s: State): Settled {
    match FirstMissing(g, names)
    case Some(name) => Missing(name)
    case None =>
      if Failing(g, names, s) != {} then Culprits(Failing(g, names, s))
      else Merged(Finish(s, names, Answers(g, names, s)))
  }

  /** A settled super-step merges the nodes' own answers in frontier order, and accounts for each
      node: failed exactly when its answer says so, with the text of its answer. */
  lemma SettledMeans(g: Graph, names: seq<string>, s: State, stepped: Stepped) returns (us: seq<Update>)
    requires Settle(g, names, s) == Merged(stepped)
    ensures |us| == |names| == |stepped.ran| && stepped.state == Merge(s, us)
    ensures forall i | 0 <= i < |names| ::
      && names[i] in g.nodes && g.nodes[names[i]](s) == Done(us[i])
      && stepped.ran[i].name == names[i] && stepped.ran[i].output == Output(us[i].messages)
      && (stepped.ran[i].status == Failed <==> us[i].status == Some(Failed))
  {
    us := Answers(g, names, s);
  }

  /** The failure an attempt reports is a real one: a node that cannot be found, a transient
      error of this attempt, or a node that fails on this state. */
  ghost predicate Blames(g: Graph, a: Attempt, names: seq<string>, s: State, e: StepError) {
    match e
    case UnknownNode(name) => Settle(g, names, s) == Missing(name)
    case NodeFailure(node, reason) =>
      AllKnown(g, names) && node in names &&
      (a.hiccup(node) == Some(reason) || (node in Failing(g, names, s) && g.nodes[node](s) == Errored(reason)))
  }

  lemma {:induction false} JoinFaithful(g: Graph, a: Attempt, s: State, pending: seq<string>, got: map<string, Update>, completed: nat)
    requires AllKnown(g, pending) && a.cancelAt.None?
    requires forall n | n in got :: n in g.nodes && g.nodes[n](s) == Done(got[n])
    ensures match Join(g, a, s, pending, got, completed)
            case Success(all) => forall n | n in all :: n in g.nodes && g.nodes[n](s) == Done(all[n])
            case Failure(e) => (
              && e.NodeFailure? && e.node in pending
              && (a.hiccup(e.node) == Some(e.reason) || g.nodes[e.node](s) == Errored(e.reason)))
    ensures (forall n | n in pending :: a.hiccup(n).None? && g.nodes[n](s).Done?) ==>
      Join(g, a, s, pending, got, completed).Success?
    decreases |pending|
  {
    if pending != [] {
      var i := Chosen(a, pending);
      var reply := Reply(g, a, s, pending[i], completed);
      if reply.Done? {
        JoinFaithful(g, a, s, Without(pending, i), got[pending[i] := reply.update], completed + 1);
      }
    }
  }

  /** Schedule independence: whatever order the nodes complete in, an attempt that is not
      cancelled and does not fail produces exactly the settled merge; an attempt that fails
      blames a real culprit; and without transient errors it fails only when some node of
      the frontier is missing or fails on this very state. */
  lemma ScheduleIndependent(g: Graph, a: Attempt, names: seq<string>, s: State)
    requires a.cancelAt.None?
    ensures match Try(g, a, names, s)
            case Success(stepped) => Settle(g, names, s) == Merged(stepped)
            case Failure(e) => Blames(g, a, names, s, e)
    ensures a.Steady() ==> (Try(g, a, names, s).Success? <==> Settle(g, names, s).Merged?)
  {
    if AllKnown(g, names) {
      JoinFaithful(g, a, s, names, map[], 0);
      match Join(g, a, s, names, map[], 0)
      case Failure(e) =>
      case Success(got) =>
        assert Failing(g, names, s) == {};
        assert InOrder(names, got) == Answers(g, names, s);
      if a.Steady() && Failing(g, names, s) == {} {
        assert forall n | n in names :: n in Failing(g, names, s) || g.nodes[n](s).Done?;
      }
    }
  }

  /** Two schedules of the same super-step agree, whichever way its frontier was discovered. */
  lemma SchedulesAgree(g: Graph, a: Attempt, b: Attempt, found: seq<string>, found': seq<string>, s: State)
    requires a.cancelAt.None? && b.cancelAt.None? && SameNames(found, found')
    requires Try(g, a, Canonical(found), s).Success? && Try(g, b, Canonical(found'), s).Success?
    ensures Try(g, a, Canonical(found), s) == Try(g, b, Canonical(found'), s)
  {
    CanonicalIgnoresDiscovery(found, found');
    ScheduleIndependent(g, a, Canonical(found), s);
    ScheduleIndependent(g, b, Canonical(found), s);
  }
}
