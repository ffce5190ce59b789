/** The server's jobs as sessions of a run: the jobs of one id follow one another, so what they
    write is a chain of sessions. */
module ServerSessions {
  import opened Wrappers
  import opened RunRegistry
  import opened Graphs
  import opened Runs
  import opened Recovery
  import Checkpoints

  /** A job begins, writes to its run's checkpoint, and finishes. */
  datatype Step = Begin(job: RunHandle) | Stored(job: RunHandle, w: Checkpoints.Write) | Finish(job: RunHandle)

  ghost function Begun(steps: seq<Step>): set<RunHandle> {
    set step | step in steps && step.Begin? :: step.job
  }

  ghost function Driving(steps: seq<Step>): set<RunHandle> {
    if steps == [] then {} else DrivingAfter(Driving(steps[..|steps| - 1]), steps[|steps| - 1])
  }

  ghost function DrivingAfter(driving: set<RunHandle>, step: Step): set<RunHandle> {
    match step
    case Begin(job) => driving + {job}
    case Stored(_, _) => driving
    case Finish(job) => driving - {job}
  }

  /** A job begins once, and only when no other job drives its run; only a job that has begun and
      not finished writes. */
  ghost predicate Legal(steps: seq<Step>) {
    steps == [] || (Legal(steps[..|steps| - 1]) && MayFollow(steps[..|steps| - 1], steps[|steps| - 1]))
  }

  ghost predicate MayFollow(steps: seq<Step>, step: Step) {
    match step
    case Begin(job) => job !in Begun(steps) && forall other | other in Driving(steps) :: other.id != job.id
    case Stored(job, _) => job in Driving(steps)
    case Finish(job) => job in Driving(steps)
  }

  lemma StepsSnoc(steps: seq<Step>, step: Step)
    ensures Begun(steps + [step]) == Begun(steps) + if step.Begin? then {step.job} else {}
    ensures Driving(steps + [step]) == DrivingAfter(Driving(steps), step)
    ensures Legal(steps + [step]) <==> Legal(steps) && MayFollow(steps, step)
  {
    assert (steps + [step])[..|steps|] == steps;
  }

  lemma {:induction false} DrivingHasBegun(steps: seq<Step>)
    ensures Driving(steps) <= Begun(steps)
  {
    if steps != [] {
      var init := steps[..|steps| - 1];
      DrivingHasBegun(init);
      assert steps == init + [steps[|steps| - 1]];
      StepsSnoc(init, steps[|steps| - 1]);
    }
  }

  /** What the registry promises is what may follow: a job that it has just registered may begin,
      and a live job may write or finish. */
  lemma RegistryAllows(server: Server, steps: seq<Step>, h: RunHandle, w: Checkpoints.Write)
    requires server.Valid() && Legal(steps) && Driving(steps) == server.live
    ensures h !in Begun(steps) && (forall j | j in server.live :: j.id != h.id) ==>
      Legal(steps + [Begin(h)]) && Driving(steps + [Begin(h)]) == server.live + {h}
    ensures h in server.live ==> Legal(steps + [Stored(h, w)]) && Driving(steps + [Stored(h, w)]) == server.live
    ensures h in server.live ==> Legal(steps + [Finish(h)]) && Driving(steps + [Finish(h)]) == server.live - {h}
  {
    StepsSnoc(steps, Begin(h));
    StepsSnoc(steps, Stored(h, w));
    StepsSnoc(steps, Finish(h));
  }

  // ----- the writes of one run -----

  function WriteFor(step: Step, id: nat): seq<Checkpoints.Write> {
    if step.Stored? && step.job.id == id then [step.w] else []
  }

  function StoredFor(steps: seq<Step>, id: nat): seq<Checkpoints.Write> {
    if steps == [] then [] else StoredFor(steps[..|steps| - 1], id) + WriteFor(steps[|steps| - 1], id)
  }

  function WriteBy(step: Step, job: RunHandle): seq<Checkpoints.Write> {
    if step.Stored? && step.job == job then [step.w] else []
  }

  function StoredBy(steps: seq<Step>, job: RunHandle): seq<Checkpoints.Write> {
    if steps == [] then [] else StoredBy(steps[..|steps| - 1], job) + WriteBy(steps[|steps| - 1], job)
  }

  function NewJob(step: Step, id: nat): seq<RunHandle> {
    if step.Begin? && step.job.id == id then [step.job] else []
  }

  /** The jobs of one run, in the order they began. */
  function JobsOf(steps: seq<Step>, id: nat): seq<RunHandle> {
    if steps == [] then [] else JobsOf(steps[..|steps| - 1], id) + NewJob(steps[|steps| - 1], id)
  }

  lemma RunSnoc(steps: seq<Step>, step: Step, id: nat, job: RunHandle)
    ensures StoredFor(steps + [step], id) == StoredFor(steps, id) + WriteFor(step, id)
    ensures StoredBy(steps + [step], job) == StoredBy(steps, job) + WriteBy(step, job)
    ensures JobsOf(steps + [step], id) == JobsOf(steps, id) + NewJob(step, id)
  {
    assert (steps + [step])[..|steps|] == steps;
  }

  function Sessions(steps: seq<Step>, jobs: seq<RunHandle>): seq<Checkpoints.Write> {
    if jobs == [] then [] else StoredBy(steps, jobs[0]) + Sessions(steps, jobs[1..])
  }

  lemma {:induction false} SessionsSnoc(steps: seq<Step>, jobs: seq<RunHandle>, job: RunHandle)
    ensures Sessions(steps, jobs + [job]) == Sessions(steps, jobs) + StoredBy(steps, job)
  {
    hide StoredBy;
    if jobs == [] {
      assert [] + [job] == [job] && [job][1..] == [];
    } else {
      assert (jobs + [job])[1..] == jobs[1..] + [job];
      SessionsSnoc(steps, jobs[1..], job);
    }
  }

  /** A step that is not a write of one of the jobs does not change their sessions. */
  lemma {:induction false} SessionsKept(steps: seq<Step>, step: Step, jobs: seq<RunHandle>)
    requires step.Stored? ==> step.job !in jobs
    ensures Sessions(steps + [step], jobs) == Sessions(steps, jobs)
  {
    assert (steps + [step])[..|steps|] == steps;
    if jobs != [] {
      SessionsKept(steps, step, jobs[1..]);
      assert StoredBy(steps, jobs[0]) + [] == StoredBy(steps, jobs[0]);
    }
  }

  /** The jobs of a run are those that have begun with its id. */
  lemma {:induction false} JobsHaveBegun(steps: seq<Step>, id: nat)
    ensures forall job :: job in JobsOf(steps, id) <==> job in Begun(steps) && job.id == id
  {
    if steps != [] {
      var init, last := steps[..|steps| - 1], steps[|steps| - 1];
      JobsHaveBegun(init, id);
      assert steps == init + [last];
      StepsSnoc(init, last);
      hide Begun, Driving, Legal;
    }
  }

  /** A job that drives a run is its latest, and no earlier one is the same job. */
  lemma {:induction false} LatestDrives(steps: seq<Step>, job: RunHandle)
    requires Legal(steps) && job in Driving(steps)
    ensures var jobs := JobsOf(steps, job.id);
      jobs != [] && jobs[|jobs| - 1] == job && job !in jobs[..|jobs| - 1]
  {
    if steps != [] {
      var init, last := steps[..|steps| - 1], steps[|steps| - 1];
      assert steps == init + [last];
      StepsSnoc(init, last);
      RunSnoc(init, last, job.id, job);
      JobsHaveBegun(init, job.id);
      var jobs := JobsOf(init, job.id);
      hide Legal, Driving, Begun, JobsOf;
      if last == Begin(job) {
        assert (jobs + [job])[..|jobs|] == jobs;
      } else {
        LatestDrives(init, job);
        assert jobs + [] == jobs;
      }
    }
  }

  lemma {:induction false} UnbegunStoresNothing(steps: seq<Step>, job: RunHandle)
    requires Legal(steps) && job !in Begun(steps)
    ensures StoredBy(steps, job) == []
  {
    if steps != [] {
      var init, last := steps[..|steps| - 1], steps[|steps| - 1];
      assert steps == init + [last];
      StepsSnoc(init, last);
      DrivingHasBegun(init);
      UnbegunStoresNothing(init, job);
    }
  }

  /** The sessions of a run follow one another: its writes are those of its first job, then those
      of its second, and so on. */
  lemma {:induction false} SessionsFollowOneAnother(steps: seq<Step>, id: nat)
    requires Legal(steps)
    ensures StoredFor(steps, id) == Sessions(steps, JobsOf(steps, id))
  {
    if steps != [] {
      var init, last := steps[..|steps| - 1], steps[|steps| - 1];
      var jobs := JobsOf(init, id);
      assert steps == init + [last];
      StepsSnoc(init, last);
      RunSnoc(init, last, id, last.job);
      SessionsFollowOneAnother(init, id);
      hide Legal, Driving, Begun, JobsOf, StoredFor, StoredBy, Sessions;
      if last.Begin? && last.job.id == id {
        UnbegunStoresNothing(init, last.job);
        SessionsKept(init, last, jobs + [last.job]);
        SessionsSnoc(init, jobs, last.job);
      } else if last.Stored? && last.job.id == id {
        LatestDrives(init, last.job);
        var earlier := jobs[..|jobs| - 1];
        assert jobs == earlier + [last.job] && jobs + [] == jobs;
        SessionsKept(init, last, earlier);
        SessionsSnoc(init, earlier, last.job);
        SessionsSnoc(steps, earlier, last.job);
      } else {
        JobsHaveBegun(init, id);
        SessionsKept(init, last, jobs);
        assert jobs + [] == jobs && StoredFor(init, id) + [] == StoredFor(init, id);
      }
    }
  }

  // ----- a chain of sessions -----

  /** The jobs' writes are those of the given sessions, the first of a fresh run and each later one
      of a run resumed from the row that it finds. */
  ghost predicate Continues(g: Graph, cfg: Config, steps: seq<Step>, row: Option<Checkpoints.Row>, jobs: seq<RunHandle>,
                            sessions: seq<Session>)
    decreases |jobs|
  {
    && |jobs| == |sessions|
    && (jobs != [] ==>
          var next := AfterResume(g, cfg, row, sessions[0]);
          && Checkpoints.AllWritten(row, StoredBy(steps, jobs[0])) == next
          && Continues(g, cfg, steps, next, jobs[1..], sessions[1..]))
  }

  lemma {:induction false} ChainOfJobs(g: Graph, cfg: Config, steps: seq<Step>, row: Option<Checkpoints.Row>,
                                       jobs: seq<RunHandle>, sessions: seq<Session>)
    requires Continues(g, cfg, steps, row, jobs, sessions)
    ensures Checkpoints.AllWritten(row, Sessions(steps, jobs)) == AfterAll(g, cfg, row, sessions)
    decreases |jobs|
  {
    hide AfterResume, StoredBy;
    if jobs != [] {
      var first := StoredBy(steps, jobs[0]);
      ChainOfJobs(g, cfg, steps, Checkpoints.AllWritten(row, first), jobs[1..], sessions[1..]);
      Checkpoints.AllWrittenConcat(row, first, Sessions(steps, jobs[1..]));
    }
  }

  /** The row that the server's jobs leave is the row after a chain of sessions, as crash
      equivalence takes it. */
  lemma ServerRowIsAChain(g: Graph, cfg: Config, task: string, steps: seq<Step>, id: nat, first: Session, later: seq<Session>)
    requires Legal(steps) && JobsOf(steps, id) != []
    requires var jobs := JobsOf(steps, id);
      && Checkpoints.AllWritten(None, StoredBy(steps, jobs[0])) == AfterFresh(g, cfg, task, first)
      && Continues(g, cfg, steps, AfterFresh(g, cfg, task, first), jobs[1..], later)
    ensures Checkpoints.AllWritten(None, StoredFor(steps, id)) == AfterAll(g, cfg, AfterFresh(g, cfg, task, first), later)
  {
    hide AfterFresh, AfterAll, Continues, StoredBy, JobsOf;
    var jobs := JobsOf(steps, id);
    SessionsFollowOneAnother(steps, id);
    ChainOfJobs(g, cfg, steps, AfterFresh(g, cfg, task, first), jobs[1..], later);
    Checkpoints.AllWrittenConcat(None, StoredBy(steps, jobs[0]), Sessions(steps, jobs[1..]));
  }
}
