/** The event history of a server run and the hand-off from replay to live events. */
module EventStream {
  const MAX_HISTORY := 10_000

  /** How many of the oldest events are dropped at once. */
  const TRIM_BATCH := 2_000

  datatype RunEvent = RunEvent(seqNo: nat, event: string)

  /** Events `from` up to `till` of a log, stamped with their numbers. */
  function Stamped(log: seq<string>, from: nat, till: nat): (r: seq<RunEvent>)
    requires from <= till <= |log|
    ensures |r| == till - from
  {
    seq(till - from, i requires 0 <= i < till - from => RunEvent(from + i, log[from + i]))
  }

  /** How many events have been dropped once `n` were recorded. */
  function Dropped(n: nat): (d: nat)
    ensures d <= n && n - d <= MAX_HISTORY + TRIM_BATCH
    ensures n > 0 ==> d < n
    ensures d > 0 ==> n - d > MAX_HISTORY
  {
    if n <= MAX_HISTORY + TRIM_BATCH then 0 else (n - MAX_HISTORY - 1) / TRIM_BATCH * TRIM_BATCH
  }

  /** Appends to the history, dropping the oldest batch once it is too long. */
  function Pushed(history: seq<RunEvent>, ev: RunEvent): seq<RunEvent> {
    var longer := history + [ev];
    if |longer| > MAX_HISTORY + TRIM_BATCH then longer[TRIM_BATCH..] else longer
  }

  /** The history is at every moment the stamped log without its dropped front. */
  lemma PushedKeepsSuffix(log: seq<string>, event: string)
    ensures Pushed(Stamped(log, Dropped(|log|), |log|), RunEvent(|log|, event))
         == Stamped(log + [event], Dropped(|log| + 1), |log| + 1)
  {
    var n := |log|;
    var longer := Stamped(log, Dropped(n), n) + [RunEvent(n, event)];
    DroppedSteps(n);
    assert longer == Stamped(log + [event], Dropped(n), n + 1);
    if |longer| > MAX_HISTORY + TRIM_BATCH {
      assert longer[TRIM_BATCH..] == Stamped(log + [event], Dropped(n) + TRIM_BATCH, n + 1);
    }
  }

  lemma DroppedSteps(n: nat)
    ensures Dropped(n + 1) == if n - Dropped(n) == MAX_HISTORY + TRIM_BATCH then Dropped(n) + TRIM_BATCH else Dropped(n)
  {
    if n > MAX_HISTORY + TRIM_BATCH {
      var k := n - MAX_HISTORY - 1;
      var q, r := k / TRIM_BATCH, k % TRIM_BATCH;
      assert k == q * TRIM_BATCH + r;
      assert (k + 1) / TRIM_BATCH == if r + 1 == TRIM_BATCH then q + 1 else q;
    }
  }

  /** Records the events of one run. */
  class ChannelAuditSink {
    var seqNo: nat
    var history: seq<RunEvent>
    /** Everything sent to the broadcast channel. */
    ghost var sent: seq<RunEvent>
    ghost var log: seq<string>

    ghost predicate Valid()
      reads this
    {
      && seqNo == |log|
      && history == Stamped(log, Dropped(|log|), |log|)
      && sent == Stamped(log, 0, |log|)
    }

    constructor ()
      ensures Valid() && log == []
    {
      seqNo, history, sent, log := 0, [], [], [];
    }

    /** Stamps an event, keeps it in the bounded history, and sends it. */
    method Record(event: string)
      requires Valid()
      modifies this
      ensures Valid() && log == old(log) + [event]
      ensures |history| == |log| || |history| > MAX_HISTORY
      ensures |history| <= MAX_HISTORY + TRIM_BATCH && history[|history| - 1] == RunEvent(old(seqNo), event)
    {
      PushedKeepsSuffix(log, event);
      var ev := RunEvent(seqNo, event);
      seqNo := seqNo + 1;
      history := history + [ev];
      if |history| > MAX_HISTORY + TRIM_BATCH {
        history := history[TRIM_BATCH..];
      }
      log := log + [event];
      sent := sent + [ev];
    }
  }

  // ----- one subscriber beside the recorder -----

  /** What the recorder and one subscriber may do next, in any order. A record is two moves:
      the push into the history, and later the send. */
  datatype Move = Push(event: string) | Send | TripFinished | Subscribe | Snapshot | TestFinished | Receive | End

  datatype Phase = Away | Subscribed | Snapped | Live | Closed

  datatype System = System(
    log: seq<string>,
    history: seq<RunEvent>,
    sending: bool,
    finished: bool,
    phase: Phase,
    /** Sent to the subscriber and not yet received. */
    queue: seq<RunEvent>,
    snapshot: seq<RunEvent>,
    /** How many events were in the log when the snapshot was taken. */
    snapshotAt: nat,
    /** The run had already finished when the subscriber looked. */
    early: bool,
    delivered: seq<RunEvent>)

  const START := System([], [], false, false, Away, [], [], 0, false, [])

  /** A received event goes out only when it is newer than the last one that did. */
  function Deliver(delivered: seq<RunEvent>, ev: RunEvent): seq<RunEvent> {
    if delivered == [] || ev.seqNo > delivered[|delivered| - 1].seqNo then delivered + [ev] else delivered
  }

  /** One move; a move that is not possible now changes nothing. */
  function After(s: System, m: Move): System {
    match m
    case Push(event) =>
      if s.sending || s.finished then s else
      s.(log := s.log + [event], history := Pushed(s.history, RunEvent(|s.log|, event)), sending := true)
    case Send =>
      if !s.sending || s.log == [] then s else
      var last := |s.log| - 1;
      var listening := s.phase != Away && s.phase != Closed;
      s.(sending := false, queue := if listening then s.queue + [RunEvent(last, s.log[last])] else s.queue)
    case TripFinished => if s.sending then s else s.(finished := true)
    case Subscribe => if s.phase != Away then s else s.(phase := Subscribed)
    case Snapshot =>
      if s.phase != Subscribed then s else s.(phase := Snapped, snapshot := s.history, snapshotAt := |s.log|)
    case TestFinished =>
      if s.phase != Snapped then s else
      s.(phase := if s.finished then Closed else Live, early := s.finished, delivered := s.snapshot)
    case Receive =>
      if s.phase != Live || s.queue == [] then s else
      s.(queue := s.queue[1..], delivered := Deliver(s.delivered, s.queue[0]))
    case End => if s.phase == Live && s.finished && s.queue == [] then s.(phase := Closed) else s
  }

  function Run(moves: seq<Move>): System {
    if moves == [] then START else After(Run(moves[..|moves| - 1]), moves[|moves| - 1])
  }

  /** How many events have left the recorder. */
  function Out(s: System): int {
    |s.log| - if s.sending then 1 else 0
  }

  /** What has been delivered is the log from the snapshot's start up to `till`. */
  ghost predicate DeliveredUpTo(s: System, till: int) {
    && s.snapshotAt <= till <= |s.log|
    && s.delivered == Stamped(s.log, Dropped(s.snapshotAt), till)
  }

  /** The queue holds the log's latest sent events, from `at` on. */
  ghost predicate QueuedFrom(s: System, at: int) {
    0 <= at <= Out(s) && s.queue == Stamped(s.log, at, Out(s))
  }

  ghost predicate Reachable(s: System) {
    && (s.sending ==> s.log != [])
    && s.history == Stamped(s.log, Dropped(|s.log|), |s.log|)
    && (s.finished ==> !s.sending)
    && match s.phase
       case Away => s.queue == []
       case Subscribed => QueuedFrom(s, Out(s) - |s.queue|)
       case Snapped => (
         && QueuedFrom(s, Out(s) - |s.queue|)
         && Out(s) - |s.queue| <= s.snapshotAt <= |s.log|
         && s.snapshot == Stamped(s.log, Dropped(s.snapshotAt), s.snapshotAt))
       case Live => (
         && !s.early
         && QueuedFrom(s, Out(s) - |s.queue|)
         && Out(s) - |s.queue| <= |s.log|
         && DeliveredUpTo(s, Later(s.snapshotAt, Out(s) - |s.queue|)))
       case Closed => s.finished && DeliveredUpTo(s, if s.early then s.snapshotAt else |s.log|)
  }

  function Later(a: int, b: int): int {
    if a < b then b else a
  }

  lemma PushReachable(s: System, event: string)
    requires Reachable(s)
    ensures Reachable(After(s, Push(event)))
  {
    PushedKeepsSuffix(s.log, event);
  }

  lemma SendReachable(s: System)
    requires Reachable(s)
    ensures Reachable(After(s, Send))
  {
    hide Dropped, Pushed;
    var from := Out(s) - |s.queue|;
    if s.sending && 0 <= from <= Out(s) && s.queue == Stamped(s.log, from, Out(s)) {
      assert s.queue + [RunEvent(Out(s), s.log[Out(s)])] == Stamped(s.log, from, Out(s) + 1);
    }
  }

  lemma ReceiveReachable(s: System)
    requires Reachable(s)
    ensures Reachable(After(s, Receive))
  {
    hide Dropped, Pushed;
    if s.phase == Live && s.queue != [] {
      var q, d := Out(s) - |s.queue|, s.delivered;
      assert s.queue[0] == RunEvent(q, s.log[q]);
      assert d != [] ==> d[|d| - 1].seqNo == Later(s.snapshotAt, q) - 1;
      assert s.queue[1..] == Stamped(s.log, q + 1, Out(s));
    }
  }

  lemma QuietReachable(s: System, m: Move)
    requires Reachable(s) && !m.Push? && !m.Send? && !m.Receive?
    ensures Reachable(After(s, m))
  {
    hide Dropped, Pushed;
  }

  lemma {:induction false} AllReachable(moves: seq<Move>)
    ensures Reachable(Run(moves))
  {
    if moves != [] {
      var s, m := Run(moves[..|moves| - 1]), moves[|moves| - 1];
      AllReachable(moves[..|moves| - 1]);
      hide Reachable, After;
      match m {
        case Push(event) => PushReachable(s, event);
        case Send => SendReachable(s);
        case Receive => ReceiveReachable(s);
        case _ => QuietReachable(s, m);
      }
    }
  }

  /** In every interleaving a subscriber is given, from the start of its snapshot on, every
      event exactly once and in order. */
  lemma DeliveryHasNoGaps(moves: seq<Move>)
    ensures var s := Run(moves);
      s.phase == Live || s.phase == Closed ==>
        var from := Dropped(s.snapshotAt);
        from + |s.delivered| <= |s.log| && s.delivered == Stamped(s.log, from, from + |s.delivered|)
  {
    AllReachable(moves);
  }

  /** A closed stream has delivered everything to the end of the run, unless the run finished
      between its snapshot and its test, with events recorded in that gap. */
  lemma CompleteUnlessFinishedInTheGap(moves: seq<Move>)
    requires Run(moves).phase == Closed
    ensures var s := Run(moves);
      && s.snapshotAt <= |s.log|
      && (s.delivered == Stamped(s.log, Dropped(s.snapshotAt), |s.log|) <==> !(s.early && s.snapshotAt < |s.log|))
  {
    AllReachable(moves);
  }

  function Receives(n: nat): seq<Move> {
    seq(n, i requires 0 <= i < n => Receive)
  }

  lemma RunSnoc(moves: seq<Move>, m: Move)
    ensures Run(moves + [m]) == After(Run(moves), m)
  {
    assert (moves + [m])[..|moves|] == moves;
  }

  lemma ReceivesSnoc(n: nat)
    ensures Receives(n) == if n == 0 then [] else Receives(n - 1) + [Receive]
  {
  }

  lemma OneReceive(s: System)
    requires s.phase == Live && s.queue != []
    ensures After(s, Receive) == s.(queue := s.queue[1..], delivered := After(s, Receive).delivered)
  {
  }

  /** Receiving empties the queue and changes nothing else but what is delivered. */
  lemma {:induction false} ReceivesDrain(moves: seq<Move>, n: nat)
    requires Run(moves).phase == Live && n <= |Run(moves).queue|
    ensures var s, s' := Run(moves), Run(moves + Receives(n));
      s' == s.(queue := s.queue[n..], delivered := s'.delivered)
  {
    hide Run, After, Receives;
    ReceivesSnoc(n);
    if n == 0 {
      assert moves + [] == moves;
    } else {
      var before := moves + Receives(n - 1);
      ReceivesDrain(moves, n - 1);
      OneReceive(Run(before));
      RunSnoc(before, Receive);
      assert moves + (Receives(n - 1) + [Receive]) == before + [Receive];
    }
  }

  /** A stream of a finished run ends as soon as what is queued has been received, and then it has
      delivered everything up to the run's last event. */
  lemma StreamEnds(moves: seq<Move>)
    requires Run(moves).finished && Run(moves).phase == Live
    ensures var s, end := Run(moves), Run(moves + Receives(|Run(moves).queue|) + [End]);
      end.phase == Closed && s.snapshotAt <= |s.log| && end.delivered == Stamped(s.log, Dropped(s.snapshotAt), |s.log|)
  {
    var drain := moves + Receives(|Run(moves).queue|);
    ReceivesDrain(moves, |Run(moves).queue|);
    RunSnoc(drain, End);
    CompleteUnlessFinishedInTheGap(drain + [End]);
    AllReachable(drain);
  }

  lemma SubscribesAndLooks(moves: seq<Move>)
    requires Run(moves).phase == Away
    ensures var s := Run(moves);
      Run(moves + [Subscribe] + [Snapshot] + [TestFinished]) == s.(
        phase := if s.finished then Closed else Live, snapshot := s.history, snapshotAt := |s.log|,
        early := s.finished, delivered := s.history)
  {
    hide Run;
    RunSnoc(moves, Subscribe);
    RunSnoc(moves + [Subscribe], Snapshot);
    RunSnoc(moves + [Subscribe] + [Snapshot], TestFinished);
  }

  /** A subscriber that starts on a finished run gets the whole kept history and ends at once. */
  lemma LateSubscriberEnds(moves: seq<Move>)
    requires Run(moves).finished && Run(moves).phase == Away
    ensures var s, end := Run(moves), Run(moves + [Subscribe] + [Snapshot] + [TestFinished]);
      end.phase == Closed && end.delivered == Stamped(s.log, Dropped(|s.log|), |s.log|)
  {
    SubscribesAndLooks(moves);
    AllReachable(moves);
    hide Run, Pushed, Dropped;
  }

  /** One that starts before the run has finished gets the kept history and stays for the rest. */
  lemma EarlySubscriberStays(moves: seq<Move>)
    requires !Run(moves).finished && Run(moves).phase == Away
    ensures var s, now := Run(moves), Run(moves + [Subscribe] + [Snapshot] + [TestFinished]);
      now.phase == Live && now.delivered == Stamped(s.log, Dropped(|s.log|), |s.log|)
  {
    SubscribesAndLooks(moves);
    AllReachable(moves);
    hide Run, Pushed, Dropped;
  }

  /** The gap is real: a subscriber can close on a finished run having missed its last event. */
  lemma TheGapIsReal()
    ensures var s := Run([Subscribe, Snapshot, Push("run completed"), Send, TripFinished, TestFinished]);
      s.phase == Closed && s.delivered == [] && |s.log| == 1
  {
    var moves := [Subscribe, Snapshot, Push("run completed"), Send, TripFinished, TestFinished];
    assert Run(moves[..0]) == START;
    assert moves[..1][..0] == moves[..0] && moves[..2][..1] == moves[..1] && moves[..3][..2] == moves[..2];
    assert moves[..4][..3] == moves[..3] && moves[..5][..4] == moves[..4] && moves[..6][..5] == moves[..5] && moves[..6] == moves;
    assert Run(moves[..2]).phase == Snapped && Run(moves[..2]).snapshot == [];
    assert Run(moves[..4]).phase == Snapped && Run(moves[..4]).log == ["run completed"];
  }
}
