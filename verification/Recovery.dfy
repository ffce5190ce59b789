/** Crashes, cancellations and resumes: what survives in the store, and where a chain of
    interrupted sessions ends. */
module Recovery {
  import opened Wrappers
  import opened Names
  import opened Channels
  import opened Graphs
  import opened SuperSteps
  import opened Checkpoints
  import opened Runs
  import opened Meanings
  import opened Trails

  /** One process lifetime. With `crash` it dies after that many store writes; a run's writes
      are the only thing it leaves behind, so this covers every point it can die at, and a
      panic in a node as well. Without `crash` it runs to its own end. */
  datatype Session = Session(script: Script, crash: Option<nat>)

  function Persisted(run: Run, session: Session): seq<Write> {
    match session.crash
    case None => run.writes
    case Some(k) => if k < |run.writes| then run.writes[..k] else run.writes
  }

  /** What a panicking node cuts short is, for the store, a crash before the last write. */
  lemma PanicIsACrash(run: Run, script: Script, ws: seq<Write>, before: seq<Event>, events: seq<Event>)
    requires Cut(run, ws, before, events)
    ensures Persisted(run, Session(script, Some(|ws|))) == ws
  {
    assert run.writes[..|ws|] == ws;
  }

  /** The run's row after its first session. */
  function AfterFresh(g: Graph, cfg: Config, task: string, session: Session): Option<Row> {
    AllWritten(None, Persisted(RunOf(g, cfg, session.script, Fresh(task)), session))
  }

  /** The row after one more session: a finished run, or another blueprint's, is refused. */
  function AfterResume(g: Graph, cfg: Config, row: Option<Row>, session: Session): Option<Row> {
    if row.None? || !row.value.status.IsResumable() || row.value.checkpoint.blueprint != cfg.blueprint then row
    else AllWritten(row, Persisted(RunOf(g, cfg, session.script, Resume(row.value.checkpoint)), session))
  }

  /** Some session with this script makes the one row of the other, by resuming or refusing it. */
  ghost predicate Resumes(g: Graph, cfg: Config, script: Script, before: Option<Row>, after: Option<Row>) {
    exists crash: Option<nat> :: after == AfterResume(g, cfg, before, Session(script, crash))
  }

  /** Some first session with this script leaves the row. */
  ghost predicate Begins(g: Graph, cfg: Config, script: Script, task: string, after: Option<Row>) {
    exists crash: Option<nat> :: after == AfterFresh(g, cfg, task, Session(script, crash))
  }

  /** What a run wrote, to its end or up to a panic. */
  ghost predicate WroteAll(run: Run, ws: seq<Write>) {
    ws == run.writes || ws < run.writes
  }

  lemma PanicWrites(run: Run, ws: seq<Write>, before: seq<Event>, events: seq<Event>)
    requires Cut(run, ws, before, events)
    ensures WroteAll(run, ws)
  {
  }

  lemma SomeSession(run: Run, script: Script, ws: seq<Write>) returns (crash: Option<nat>)
    requires WroteAll(run, ws)
    ensures Persisted(run, Session(script, crash)) == ws
  {
    crash := if ws == run.writes then None else Some(|ws|);
    assert run.writes[..|ws|] == ws;
  }

  lemma ResumedBySession(g: Graph, cfg: Config, script: Script, row: Row, ws: seq<Write>)
    requires row.status.IsResumable() && row.checkpoint.blueprint == cfg.blueprint
    requires WroteAll(RunOf(g, cfg, script, Resume(row.checkpoint)), ws)
    ensures Resumes(g, cfg, script, Some(row), AllWritten(Some(row), ws))
  {
    hide RunOf, AllWritten;
    var crash := SomeSession(RunOf(g, cfg, script, Resume(row.checkpoint)), script, ws);
    assert AfterResume(g, cfg, Some(row), Session(script, crash)) == AllWritten(Some(row), ws);
  }

  lemma RefusedBySession(g: Graph, cfg: Config, script: Script, row: Option<Row>)
    requires row.None? || !row.value.status.IsResumable() || row.value.checkpoint.blueprint != cfg.blueprint
    ensures Resumes(g, cfg, script, row, row)
  {
    assert AfterResume(g, cfg, row, Session(script, None)) == row;
  }

  lemma BegunBySession(g: Graph, cfg: Config, script: Script, task: string, ws: seq<Write>)
    requires WroteAll(RunOf(g, cfg, script, Fresh(task)), ws)
    ensures Begins(g, cfg, script, task, AllWritten(None, ws))
  {
    hide RunOf, AllWritten;
    var crash := SomeSession(RunOf(g, cfg, script, Fresh(task)), script, ws);
    assert AfterFresh(g, cfg, task, Session(script, crash)) == AllWritten(None, ws);
  }

  function AfterAll(g: Graph, cfg: Config, row: Option<Row>, sessions: seq<Session>): Option<Row>
    decreases |sessions|
  {
    if sessions == [] then row
    else AfterAll(g, cfg, AfterResume(g, cfg, row, sessions[0]), sessions[1..])
  }

  /** The snapshot is a position on the blueprint's own course: no cancelled token, no failed
      attempt, no schedule and no crash has left a mark on it. */
  ghost predicate OnCourse(g: Graph, cfg: Config, task: string, cp: Checkpoint) {
    && cp.blueprint == cfg.blueprint
    && cp.step < cfg.maxSteps
    && cp.frontier != [] && Canonical(cp.frontier) == cp.frontier
    && Course(g, Origin(g, task), cp.step) == Some(Position(cp.step, cp.frontier, cp.state))
  }

  function FateOf(g: Graph, cfg: Config, task: string): Fate {
    Meaning(g, cfg.maxSteps, Origin(g, task))
  }

  ghost predicate NoHiccups(script: Script) {
    forall step, k, n :: script.attempt(step, k).hiccup(n).None?
  }

  /** What holds of a stored row at all times. A terminal status tells the fate; `Failed` does
      so only as long as no session saw a transient error. */
  ghost predicate Sound(g: Graph, cfg: Config, task: string, noHiccups: bool, row: Option<Row>) {
    row.Some? ==>
      && OnCourse(g, cfg, task, row.value.checkpoint)
      && (row.value.status.Completed? ==> FateOf(g, cfg, task).Reaches?)
      && (row.value.status.Failed? && noHiccups ==> !FateOf(g, cfg, task).Reaches?)
  }

  // ----- every snapshot is on course -----

  lemma CourseAdvances(g: Graph, p: Position, n: nat, stepped: Stepped, next: seq<string>)
    requires Course(g, p, n).Some?
    requires var q := Course(g, p, n).value;
      q.frontier != [] && Settle(g, q.frontier, q.state) == Merged(stepped)
      && RouteFrom(g, q.step, stepped.ran, stepped.state).next == Success(next)
    ensures Course(g, p, n + 1) == Some(At(Course(g, p, n).value.step + 1, next, stepped.state))
  {
    hide Settle, RouteFrom, Canonical;
  }

  /** Whatever happens during a run that starts on course, every snapshot it tries to save is
      on course. */
  lemma {:induction false} SnapshotsOnCourse(g: Graph, cfg: Config, task: string, script: Script,
                                             step: nat, frontier: seq<string>, s: State)
    requires Course(g, Origin(g, task), step) == Some(At(step, frontier, s))
    ensures forall w | w in Loop(g, cfg, script, step, frontier, s).writes && w.Save? :: OnCourse(g, cfg, task, w.checkpoint)
    decreases cfg.maxSteps - step
  {
    hide TryUntil, RouteFrom, Canonical, Course, Settle;
    var names := Canonical(frontier);
    if step < cfg.maxSteps && names != [] {
      LoopUnfolds(g, cfg, script, step, frontier, s);
      CanonicalIdempotent(frontier);
      AttemptsFaithful(g, cfg, script, step, names, s, 0);
      match TryUntil(g, cfg, script, step, names, s, 0).verdict
      case Interrupted =>
      case Exhausted(e) =>
      case Advanced(stepped, cancelled) =>
        var routed := RouteFrom(g, step, stepped.ran, stepped.state);
        if !cancelled && routed.next.Success? {
          CourseAdvances(g, Origin(g, task), step, stepped, routed.next.value);
          SnapshotsOnCourse(g, cfg, task, script, step + 1, routed.next.value, stepped.state);
        }
    }
  }

  // ----- what a row can hold after a prefix of a run's writes -----

  /** A row's snapshot and status each come from somewhere. */
  lemma {:induction false} Provenance(row: Option<Row>, ws: seq<Write>)
    requires AllWritten(row, ws).Some?
    ensures var r := AllWritten(row, ws).value;
      && ((row.Some? && row.value.checkpoint == r.checkpoint) || exists w | w in ws :: w.Save? && w.checkpoint == r.checkpoint)
      && (r.status.Running? || (row.Some? && row.value.status == r.status) || exists w | w in ws :: w.SetStatus? && w.status == r.status)
  {
    if ws != [] {
      var init, last := ws[..|ws| - 1], ws[|ws| - 1];
      assert last in ws && forall w | w in init :: w in ws;
      if AllWritten(row, init).Some? {
        Provenance(row, init);
      }
    }
  }

  /** One session keeps the row sound, wherever it stops. */
  lemma SessionKeepsSound(g: Graph, cfg: Config, task: string, noHiccups: bool, row: Option<Row>,
                          session: Session, step: nat, frontier: seq<string>, s: State)
    requires Sound(g, cfg, task, noHiccups, row)
    requires noHiccups ==> NoHiccups(session.script)
    requires Course(g, Origin(g, task), step) == Some(At(step, frontier, s)) && step <= cfg.maxSteps
    ensures Sound(g, cfg, task, noHiccups,
                  AllWritten(row, Persisted(Loop(g, cfg, session.script, step, frontier, s), session)))
  {
    hide Loop, Course, Meaning, OnCourse;
    var run := Loop(g, cfg, session.script, step, frontier, s);
    var ws := Persisted(run, session);
    if AllWritten(row, ws).Some? {
      Provenance(row, ws);
      assert forall w | w in ws :: w in run.writes;
      SnapshotsOnCourse(g, cfg, task, session.script, step, frontier, s);
      LoopTells(g, cfg, session.script, step, frontier, s);
      LoopWellFormed(g, cfg, session.script, step, frontier, s);
      MeaningOnCourse(g, cfg.maxSteps, Origin(g, task), step);
      StatusTells(cfg, session.script, step, run, FateOf(g, cfg, task), noHiccups);
    }
  }

  /** The one status write of a run agrees with the fate. */
  lemma StatusTells(cfg: Config, script: Script, step: nat, run: Run, fate: Fate, noHiccups: bool)
    requires WellFormed(cfg, script, step, run) && Tells(cfg, script, run, fate)
    requires noHiccups ==> NoHiccups(script)
    ensures forall w | w in run.writes && w.SetStatus? ::
      && (w.status.Completed? ==> fate.Reaches?)
      && (w.status.Failed? && noHiccups ==> !fate.Reaches?)
  {
    forall i | 0 <= i < |run.writes| - 1 ensures run.writes[i].Save? {
      assert SavesStep(cfg, script, step + i, run.writes[i]);
    }
  }

  lemma FreshOnCourse(g: Graph, task: string)
    ensures Course(g, Origin(g, task), 0) == Some(At(0, [g.entry], New(task)))
  {
  }

  lemma PrependedWrites(es: seq<Event>, run: Run, session: Session)
    ensures Persisted(Prepend([], es, run), session) == Persisted(run, session)
  {
    assert [] + run.writes == run.writes;
  }

  /** The first session leaves a sound row, or none. */
  lemma FreshSound(g: Graph, cfg: Config, task: string, noHiccups: bool, session: Session)
    requires noHiccups ==> NoHiccups(session.script)
    ensures Sound(g, cfg, task, noHiccups, AfterFresh(g, cfg, task, session))
  {
    hide Loop, Course;
    if cfg.maxSteps > 0 {
      FreshOnCourse(g, task);
      SessionKeepsSound(g, cfg, task, noHiccups, None, session, 0, [g.entry], New(task));
      PrependedWrites([Opening(g, Fresh(task))], Loop(g, cfg, session.script, 0, [g.entry], New(task)), session);
    }
  }

  /** Every later session keeps it sound. */
  lemma ResumeSound(g: Graph, cfg: Config, task: string, noHiccups: bool, row: Option<Row>, session: Session)
    requires Sound(g, cfg, task, noHiccups, row)
    requires noHiccups ==> NoHiccups(session.script)
    ensures Sound(g, cfg, task, noHiccups, AfterResume(g, cfg, row, session))
  {
    hide Loop, Course;
    if row.Some? {
      var cp := row.value.checkpoint;
      SessionKeepsSound(g, cfg, task, noHiccups, row, session, cp.step, cp.frontier, cp.state);
      PrependedWrites([Opening(g, Resume(cp))], Loop(g, cfg, session.script, cp.step, cp.frontier, cp.state), session);
    }
  }

  /** After any chain of sessions, however each of them ends, the stored row is sound. */
  lemma {:induction false} ChainSound(g: Graph, cfg: Config, task: string, noHiccups: bool, row: Option<Row>, sessions: seq<Session>)
    requires Sound(g, cfg, task, noHiccups, row)
    requires noHiccups ==> forall x | x in sessions :: NoHiccups(x.script)
    ensures Sound(g, cfg, task, noHiccups, AfterAll(g, cfg, row, sessions))
    decreases |sessions|
  {
    hide AfterResume, Sound, NoHiccups;
    if sessions != [] {
      assert sessions[0] in sessions && forall x | x in sessions[1..] :: x in sessions;
      ResumeSound(g, cfg, task, noHiccups, row, sessions[0]);
      ChainSound(g, cfg, task, noHiccups, AfterResume(g, cfg, row, sessions[0]), sessions[1..]);
    }
  }

  // ----- crash equivalence -----

  /** Resuming from a sound row tells the truth about the blueprint from its beginning. */
  lemma ResumedTells(g: Graph, cfg: Config, task: string, cp: Checkpoint, script: Script)
    requires OnCourse(g, cfg, task, cp)
    ensures Tells(cfg, script, RunOf(g, cfg, script, Resume(cp)), FateOf(g, cfg, task))
    ensures script.Steady() ==> Fits(cfg, RunOf(g, cfg, script, Resume(cp)).outcome, FateOf(g, cfg, task))
  {
    hide Loop, Meaning, Course, Fits, Tells;
    var loop := Loop(g, cfg, script, cp.step, cp.frontier, cp.state);
    MeaningOnCourse(g, cfg.maxSteps, Origin(g, task), cp.step);
    LoopTells(g, cfg, script, cp.step, cp.frontier, cp.state);
    TellsPrepended(cfg, script, [], [Opening(g, Resume(cp))], loop, FateOf(g, cfg, task));
    if script.Steady() {
      SteadyLoopFits(g, cfg, script, cp.step, cp.frontier, cp.state);
    }
  }

  /** The outcome blames a culprit of the super-step at which the blueprint breaks. */
  ghost predicate BlamesCulprit(outcome: Result<State, RunError>, fate: Fate) {
    && fate.Breaks? && outcome.Failure? && outcome.error.StepFailed? && outcome.error.error.NodeFailure?
    && outcome.error.error.node in fate.culprits
  }

  /** The same final state or the same error, but that two runs may blame different culprits of
      the one super-step at which the blueprint breaks. */
  ghost predicate SameEnding(a: Result<State, RunError>, b: Result<State, RunError>, fate: Fate) {
    a == b || (BlamesCulprit(a, fate) && BlamesCulprit(b, fate))
  }

  /** Crash equivalence. Take any first session and any later ones: each may be cancelled, may
      see transient errors and failing store writes, and may die between any two writes. If a
      snapshot survives, it is on course. If the run can still be resumed, an undisturbed
      resume ends as an undisturbed run from the start would have ended, for any schedules.
      If it can no longer be resumed, the stored status already told that ending. */
  lemma CrashEquivalence(g: Graph, cfg: Config, task: string, first: Session, later: seq<Session>, resumed: Script, direct: Script)
    requires resumed.Steady() && direct.Steady()
    ensures var row := AfterAll(g, cfg, AfterFresh(g, cfg, task, first), later);
      row.Some? ==>
        var ending := RunOf(g, cfg, direct, Fresh(task)).outcome;
        && OnCourse(g, cfg, task, row.value.checkpoint)
        && SameEnding(RunOf(g, cfg, resumed, Resume(row.value.checkpoint)).outcome, ending, FateOf(g, cfg, task))
        && (row.value.status.Completed? ==> ending.Success?)
        && (row.value.status.Failed? && NoHiccups(first.script) && (forall x | x in later :: NoHiccups(x.script)) ==> ending.Failure?)
  {
    hide Loop, AfterAll, AfterFresh, Course, Meaning;
    var noHiccups := NoHiccups(first.script) && forall x | x in later :: NoHiccups(x.script);
    FreshSound(g, cfg, task, noHiccups, first);
    ChainSound(g, cfg, task, noHiccups, AfterFresh(g, cfg, task, first), later);
    var row := AfterAll(g, cfg, AfterFresh(g, cfg, task, first), later);
    if row.Some? {
      ResumedTells(g, cfg, task, row.value.checkpoint, resumed);
      SteadyLoopFits(g, cfg, direct, 0, [g.entry], New(task));
    }
  }
}
