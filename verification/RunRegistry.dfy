/** The server's run slots and its in-memory registry of runs. Every method is one atomic step
    of a handler or a job; steps of different handlers and jobs may come in any order. */
module RunRegistry {
  import opened Wrappers

  /** How many runs are kept before finished ones are evicted. */
  const MAX_RUNS := 1000

  const MAX_CONCURRENT_RUNS := 16

  datatype Status = Running | Succeeded | Failed | Cancelled

  class RunHandle {
    const id: nat
    const startedAt: int
    var status: Status

    constructor (id: nat, startedAt: int)
      ensures this.id == id && this.startedAt == startedAt && status == Running
    {
      this.id, this.startedAt, status := id, startedAt, Running;
    }
  }

  /** The `n` runs that started first. */
  method TakeOldest(started: map<nat, int>, n: nat) returns (oldest: set<nat>)
    requires n <= |started|
    ensures oldest <= started.Keys && |oldest| == n
    ensures forall gone, kept | gone in oldest && kept in started.Keys - oldest :: started[gone] <= started[kept]
  {
    oldest := {};
    while |oldest| < n
      invariant oldest <= started.Keys && |oldest| <= n
      invariant forall gone, kept | gone in oldest && kept in started.Keys - oldest :: started[gone] <= started[kept]
      decreases n - |oldest|
    {
      assert oldest != started.Keys;
      var next := Oldest(started, started.Keys - oldest);
      oldest := oldest + {next};
    }
  }

  method Oldest(started: map<nat, int>, ids: set<nat>) returns (oldest: nat)
    requires ids != {} && ids <= started.Keys
    ensures oldest in ids && forall id | id in ids :: started[oldest] <= started[id]
  {
    oldest :| oldest in ids;
    var left := ids - {oldest};
    while left != {}
      invariant left <= ids && oldest in ids
      invariant forall id | id in ids - left :: started[oldest] <= started[id]
    {
      var id :| id in left;
      if started[id] < started[oldest] {
        oldest := id;
      }
      left := left - {id};
    }
  }

  /** A registry whose entries are all live jobs is no larger than the live jobs. */
  lemma {:induction false} EntriesFit(runs: map<nat, RunHandle>, live: set<RunHandle>)
    requires forall id | id in runs :: runs[id].id == id && runs[id] in live
    ensures |runs| <= |live|
    decreases |runs|
  {
    if runs != map[] {
      var id :| id in runs;
      var fewer := runs - {id};
      assert fewer.Keys == runs.Keys - {id};
      EntriesFit(fewer, live - {runs[id]});
    }
  }

  lemma RemovedCount(all: map<nat, RunHandle>, gone: set<nat>)
    requires gone <= all.Keys
    ensures |all - gone| == |all| - |gone|
  {
    assert (all - gone).Keys == all.Keys - gone;
  }

  lemma SubsetFull(part: set<nat>, whole: set<nat>)
    requires part <= whole && |part| == |whole|
    ensures part == whole
  {
    assert |whole - part| == 0;
  }

  /** Registration keeps the bound, because only the live jobs' entries cannot be evicted. */
  lemma StaysBounded(runs: map<nat, RunHandle>, live: set<RunHandle>, holders: set<RunHandle>)
    requires LiveAreRunning(runs, live) && live <= holders && |holders| <= MAX_CONCURRENT_RUNS
    requires |runs| <= MAX_RUNS || forall id | id in runs :: runs[id].status == Running
    ensures |runs| <= MAX_RUNS
  {
    if |runs| > MAX_RUNS {
      EntriesFit(runs, holders);
    }
  }

  /** Live jobs are exactly the running entries of the registry. */
  ghost predicate LiveAreRunning(runs: map<nat, RunHandle>, live: set<RunHandle>)
    reads runs.Values, live
  {
    && (forall id | id in runs :: runs[id].id == id)
    && (forall id | id in runs && runs[id].status == Running :: runs[id] in live)
    && (forall h | h in live :: h.id in runs && runs[h.id] == h && h.status == Running)
  }

  ghost function RunningIds(runs: map<nat, RunHandle>): set<nat>
    reads runs.Values
  {
    set id | id in runs && runs[id].status == Running
  }

  /** At most one live job drives an id, and none of them can have lost its registry entry. */
  lemma OneDriverPerId(runs: map<nat, RunHandle>, live: set<RunHandle>)
    requires LiveAreRunning(runs, live)
    ensures forall a, b | a in live && b in live && a.id == b.id :: a == b
    ensures |live| == |RunningIds(runs)|
  {
    var running := RunningIds(runs);
    OneToOne(runs, running, live);
  }

  lemma {:induction false} OneToOne(runs: map<nat, RunHandle>, ids: set<nat>, hs: set<RunHandle>)
    requires forall id | id in ids :: id in runs && runs[id].id == id && runs[id] in hs
    requires forall h | h in hs :: h.id in ids && runs[h.id] == h
    ensures |ids| == |hs|
  {
    if h :| h in hs {
      OneToOne(runs, ids - {h.id}, hs - {h});
    } else if id :| id in ids {
      assert false;
    }
  }

  /** Registering a run whose id a running entry holds makes two live jobs with one id, and no
      registry is sound with them. */
  lemma ClashBreaks(runs: map<nat, RunHandle>, live: set<RunHandle>, h: RunHandle, after: map<nat, RunHandle>)
    requires LiveAreRunning(runs, live) && h !in live
    requires h.id in runs && runs[h.id].status == Running
    ensures !LiveAreRunning(after, live + {h})
  {
    assert runs[h.id] in live + {h} && h in live + {h} && runs[h.id] != h;
  }

  /** A running entry is a live job with that id, and there is no other. */
  lemma NoneDrives(runs: map<nat, RunHandle>, live: set<RunHandle>, h: RunHandle)
    requires LiveAreRunning(runs, live)
    ensures (exists j :: j in live && j.id == h.id) <==> h.id in runs && runs[h.id].status == Running
    ensures h.id in runs && runs[h.id].status == Running ==> runs[h.id] in live && runs[h.id].id == h.id
  {
  }

  /** The new run is in, and beyond the bound the oldest finished runs are out, no more than
      needed. */
  ghost predicate Evicts(before: map<nat, RunHandle>, h: RunHandle, after: map<nat, RunHandle>)
    reads before.Values, after.Values
  {
    EvictsThese(before, h, before.Keys - after.Keys, after)
  }

  ghost predicate EvictsThese(before: map<nat, RunHandle>, h: RunHandle, evicted: set<nat>, after: map<nat, RunHandle>)
    reads before.Values, after.Values
  {
    && evicted <= before.Keys - {h.id} && after == before[h.id := h] - evicted
    && (forall id | id in evicted :: before[id].status != Running)
    && (forall gone, kept | gone in evicted && kept in after && after[kept].status != Running ::
          before[gone].startedAt <= after[kept].startedAt)
    && (|after| <= MAX_RUNS || forall id | id in after :: after[id].status == Running)
    && (evicted != {} ==> |after| >= MAX_RUNS)
  }

  /** Below the bound nothing goes; above it exactly the excess goes, as far as there are finished
      runs. */
  lemma EvictsTheExcess(before: map<nat, RunHandle>, h: RunHandle, after: map<nat, RunHandle>)
    requires Evicts(before, h, after)
    ensures |before[h.id := h]| <= MAX_RUNS ==> after == before[h.id := h]
    ensures |before[h.id := h]| > MAX_RUNS ==>
      |after| == MAX_RUNS || (|after| > MAX_RUNS && forall id | id in after :: after[id].status == Running)
  {
    var all, gone := before[h.id := h], before.Keys - after.Keys;
    RemovedCount(all, gone);
    if gone == {} {
      assert all - gone == all;
    }
  }

  lemma TheseAreEvicted(before: map<nat, RunHandle>, h: RunHandle, evicted: set<nat>, after: map<nat, RunHandle>)
    requires evicted <= before.Keys - {h.id} && after == before[h.id := h] - evicted
    ensures before.Keys - after.Keys == evicted
  {
  }

  /** The oldest finished runs of a registry over the bound, as many as are over it. */
  method OldestFinished(all: map<nat, RunHandle>) returns (oldest: set<nat>)
    requires |all| > MAX_RUNS
    ensures oldest <= all.Keys && forall id | id in oldest :: all[id].status != Running
    ensures forall gone, kept | gone in oldest && kept in all.Keys - oldest && all[kept].status != Running ::
      all[gone].startedAt <= all[kept].startedAt
    ensures |all - oldest| >= MAX_RUNS
    ensures |all - oldest| <= MAX_RUNS || forall id | id in all.Keys - oldest :: all[id].status == Running
  {
    var started := map id | id in all && all[id].status != Running :: all[id].startedAt;
    var excess := |all| - MAX_RUNS;
    oldest := TakeOldest(started, if excess < |started| then excess else |started|);
    RemovedCount(all, oldest);
    if |started| <= excess {
      SubsetFull(oldest, started.Keys);
    }
    assert forall kept | kept in all.Keys - oldest && all[kept].status != Running :: kept in started.Keys - oldest;
  }

  /** Inserts a run and evicts the oldest finished runs over the bound. */
  method InsertEvicting(runs: map<nat, RunHandle>, h: RunHandle) returns (after: map<nat, RunHandle>)
    requires h.status == Running
    ensures Evicts(runs, h, after)
  {
    after := runs[h.id := h];
    ghost var evicted: set<nat> := {};
    if |after| > MAX_RUNS {
      var oldest := OldestFinished(after);
      after, evicted := after - oldest, oldest;
    } else {
      assert after - {} == after;
    }
    assert EvictsThese(runs, h, evicted, after);
    hide EvictsThese;
    TheseAreEvicted(runs, h, evicted, after);
  }

  /** The entries after an insertion: the new one, and old ones, every running one among them. */
  ghost predicate KeepsRunning(before: map<nat, RunHandle>, h: RunHandle, after: map<nat, RunHandle>)
    reads before.Values
  {
    && h.id in after && after[h.id] == h
    && (forall id | id in after && id != h.id :: id in before && after[id] == before[id])
    && (forall id | id in before && id != h.id && before[id].status == Running :: id in after)
  }

  lemma NewestStays(before: map<nat, RunHandle>, h: RunHandle, after: map<nat, RunHandle>)
    requires Evicts(before, h, after)
    ensures h.id in after && after[h.id] == h && KeepsRunning(before, h, after)
    ensures |after| <= MAX_RUNS || forall id | id in after :: after[id].status == Running
  {
  }

  lemma NewestIsIn(before: map<nat, RunHandle>, h: RunHandle, after: map<nat, RunHandle>)
    requires Evicts(before, h, after)
    ensures h.id in after && after[h.id] == h
  {
  }

  lemma KeptIsLive(before: map<nat, RunHandle>, h: RunHandle, after: map<nat, RunHandle>, live: set<RunHandle>)
    requires LiveAreRunning(before, live) && h.status == Running && KeepsRunning(before, h, after)
    requires h.id in before ==> before[h.id].status != Running
    ensures LiveAreRunning(after, live + {h}) && h !in live
  {
  }

  /** Registering a run and evicting finished ones leaves every live job its entry, and the
      registry within its bound. */
  lemma RegisteredIsLive(before: map<nat, RunHandle>, h: RunHandle, after: map<nat, RunHandle>,
                         live: set<RunHandle>, holders: set<RunHandle>)
    requires LiveAreRunning(before, live) && h.status == Running && Evicts(before, h, after)
    requires h.id in before ==> before[h.id].status != Running
    requires live + {h} <= holders && |holders| <= MAX_CONCURRENT_RUNS
    ensures LiveAreRunning(after, live + {h}) && h !in live && |after| <= MAX_RUNS
  {
    hide Evicts, LiveAreRunning, KeepsRunning;
    NewestStays(before, h, after);
    KeptIsLive(before, h, after, live);
    StaysBounded(after, live + {h}, holders);
  }

  class Server {
    var runs: map<nat, RunHandle>
    var freeSlots: nat
    /** Hold a slot: requests that are not registered yet, live jobs, and jobs on their way out. */
    ghost var holders: set<RunHandle>
    /** Registered jobs that have not written their outcome. */
    ghost var live: set<RunHandle>

    ghost predicate Valid()
      reads this, runs.Values, live
    {
      && freeSlots + |holders| == MAX_CONCURRENT_RUNS
      && live <= holders
      && LiveAreRunning(runs, live)
      && |runs| <= MAX_RUNS
    }

    constructor ()
      ensures Valid() && runs == map[] && live == {}
    {
      runs, freeSlots, holders, live := map[], MAX_CONCURRENT_RUNS, {}, {};
    }

    /** Takes a slot for a new or resumed run, if one is free, and makes its handle. */
    method Acquire(id: nat, startedAt: int) returns (h: Option<RunHandle>)
      requires Valid()
      modifies this`freeSlots, this`holders
      ensures Valid()
      ensures h.None? <==> |old(holders)| == MAX_CONCURRENT_RUNS
      ensures h.None? ==> holders == old(holders)
      ensures h.Some? ==> fresh(h.value) && h.value.id == id && h.value.status == Running && holders == old(holders) + {h.value}
    {
      if freeSlots == 0 {
        return None;
      }
      var handle := new RunHandle(id, startedAt);
      freeSlots := freeSlots - 1;
      holders := holders + {handle};
      return Some(handle);
    }

    /** Registers a run, whatever its id. The registry stays sound if no running entry holds that
        id, as none holds a newly created run's fresh one; otherwise it does not (`ClashBreaks`). */
    method RegisterRun(h: RunHandle)
      requires Valid() && h in holders - live && h.status == Running
      modifies this`runs, this`live
      ensures h.id in runs && runs[h.id] == h && live == old(live) + {h}
      ensures Evicts(old(runs), h, runs)
      ensures old(h.id in runs ==> runs[h.id].status != Running) ==> Valid()
    {
      hide LiveAreRunning, Evicts, KeepsRunning;
      ghost var sound := h.id in runs ==> runs[h.id].status != Running;
      var after := InsertEvicting(runs, h);
      NewestIsIn(runs, h, after);
      if sound {
        RegisteredIsLive(runs, h, after, live, holders);
      }
      runs, live := after, live + {h};
    }

    /** Registers a resumed run unless its id is already being driven. */
    method TryRegisterRun(h: RunHandle) returns (registered: bool)
      requires Valid() && h in holders - live && h.status == Running
      modifies this`runs, this`live
      ensures Valid()
      ensures registered <==> !exists j :: j in old(live) && j.id == h.id
      ensures registered ==> h.id in runs && runs[h.id] == h && live == old(live) + {h}
      ensures registered ==> Evicts(old(runs), h, runs)
      ensures !registered ==> runs == old(runs) && live == old(live)
    {
      NoneDrives(runs, live, h);
      if h.id in runs && runs[h.id].status == Running {
        return false;
      }
      hide LiveAreRunning;
      RegisterRun(h);
      registered := true;
    }

    /** A job writes its final status, or its guard writes `Failed` when it panicked. */
    method RecordOutcome(h: RunHandle, status: Status)
      requires Valid() && h in live && status != Running
      modifies this`live, h
      ensures Valid() && h.status == status && live == old(live) - {h}
    {
      h.status := status;
      live := live - {h};
    }

    /** A refused resume, or a job that has recorded its outcome, gives its slot back. */
    method Release(h: RunHandle)
      requires Valid() && h in holders - live
      modifies this`holders, this`freeSlots
      ensures Valid() && holders == old(holders) - {h} && freeSlots == old(freeSlots) + 1
    {
      holders := holders - {h};
      freeSlots := freeSlots + 1;
    }
  }
}
