/** The typed channels of a blueprint run and the reducers that merge node updates. */
module Channels {
  import opened Wrappers

  datatype Status = Ok | Failed

  datatype Entry = Entry(node: string, text: string)

  datatype State = State(task: string, messages: seq<Entry>, status: Option<Status>, vars: map<string, string>) {

    /** Merges one update: append, last write, merge. `task` is never touched. */
    function Apply(u: Update): State {
      State(task, messages + u.messages, if u.status.Some? then u.status else status, vars + u.vars)
    }
  }

  function New(task: string): State {
    State(task, [], None, map[])
  }

  datatype Update = Update(messages: seq<Entry>, status: Option<Status>, vars: map<string, string>)

  /** The update nearly every node returns: one transcript entry, a status, and the same text
      under the node's own name. */
  function FromNode(node: string, text: string, status: Status): Update {
    Update([Entry(node, text)], Some(status), map[node := text])
  }

  /** A new run holds nothing but its task: its first update is all that is in its channels. */
  lemma FirstUpdate(task: string, u: Update)
    ensures Merge(New(task), [u]) == State(task, u.messages, u.status, u.vars)
  {
    var us := [u];
    assert us[..0] == [];
    assert ApplyAll(New(task), us) == New(task).Apply(us[0]);
    assert [] + u.messages == u.messages && map[] + u.vars == u.vars;
    assert AnyStatus(us) <==> us[0].status.Some?;
    assert AnyFailed(us) <==> us[0].status == Some(Failed);
    if u.status.Some? {
      match u.status.value case Ok => case Failed =>
    }
  }

  /** So does what one node reports. */
  lemma FirstReport(task: string, node: string, text: string, status: Status)
    ensures Merge(New(task), [FromNode(node, text, status)])
         == State(task, [Entry(node, text)], Some(status), map[node := text])
  {
    FirstUpdate(task, FromNode(node, text, status));
  }

  /** Applies the updates of one super-step in order. */
  function ApplyAll(s: State, us: seq<Update>): State {
    if us == [] then s else ApplyAll(s, us[..|us| - 1]).Apply(us[|us| - 1])
  }

  predicate AnyStatus(us: seq<Update>) {
    exists i | 0 <= i < |us| :: us[i].status.Some?
  }

  predicate AnyFailed(us: seq<Update>) {
    exists i | 0 <= i < |us| :: us[i].status == Some(Failed)
  }

  /** The merge of a whole super-step: every reducer, then failure dominates. */
  function Merge(s: State, us: seq<Update>): State {
    var merged := ApplyAll(s, us);
    if AnyStatus(us) then merged.(status := Some(if AnyFailed(us) then Failed else Ok)) else merged
  }

  /** The transcript entries of a list of updates, in order. */
  function Transcript(us: seq<Update>): seq<Entry> {
    if us == [] then [] else us[0].messages + Transcript(us[1..])
  }

  ghost predicate LastWriter(us: seq<Update>, key: string, i: int) {
    0 <= i < |us| && key in us[i].vars && forall j | i < j < |us| :: key !in us[j].vars
  }

  ghost predicate Untouched(us: seq<Update>, key: string) {
    forall i | 0 <= i < |us| :: key !in us[i].vars
  }

  function Lookup(vars: map<string, string>, key: string): Option<string> {
    if key in vars then Some(vars[key]) else None
  }

  lemma TranscriptUnfolds(us: seq<Update>)
    requires us != []
    ensures Transcript(us) == us[0].messages + Transcript(us[1..])
  {
  }

  lemma {:induction false} TranscriptSnoc(us: seq<Update>)
    requires us != []
    ensures Transcript(us) == Transcript(us[..|us| - 1]) + us[|us| - 1].messages
  {
    if |us| == 1 {
      assert us[1..] == [] && us[..0] == [];
    } else {
      var rest, init, last := us[1..], us[..|us| - 1], us[|us| - 1].messages;
      TranscriptSnoc(rest);
      assert rest[..|rest| - 1] == init[1..] && rest[|rest| - 1] == us[|us| - 1];
      hide Transcript;
      TranscriptUnfolds(us);
      TranscriptUnfolds(init);
      assert us[0].messages + (Transcript(init[1..]) + last) == us[0].messages + Transcript(init[1..]) + last;
    }
  }

  lemma {:induction false} ApplyAllChannels(s: State, us: seq<Update>)
    ensures ApplyAll(s, us).task == s.task
    ensures ApplyAll(s, us).messages == s.messages + Transcript(us)
    ensures !AnyStatus(us) ==> ApplyAll(s, us).status == s.status
  {
    if us != [] {
      ApplyAllChannels(s, us[..|us| - 1]);
      TranscriptSnoc(us);
    }
  }

  lemma {:induction false} LastWriteWins(s: State, us: seq<Update>, key: string, i: int)
    requires LastWriter(us, key, i)
    ensures Lookup(ApplyAll(s, us).vars, key) == Some(us[i].vars[key])
  {
    if i < |us| - 1 {
      assert LastWriter(us[..|us| - 1], key, i);
      LastWriteWins(s, us[..|us| - 1], key, i);
    }
  }

  lemma {:induction false} UntouchedKept(s: State, us: seq<Update>, key: string)
    requires Untouched(us, key)
    ensures Lookup(ApplyAll(s, us).vars, key) == Lookup(s.vars, key)
  {
    if us != [] {
      UntouchedKept(s, us[..|us| - 1], key);
    }
  }

  /** The merged state, channel by channel: `task` never changes, the transcript grows by
      the nodes' entries in order, each variable holds its last writer's value, and one
      failed branch makes the whole super-step failed. */
  lemma MergeChannels(s: State, us: seq<Update>)
    ensures Merge(s, us).task == s.task
    ensures Merge(s, us).messages == s.messages + Transcript(us)
    ensures forall key, i | LastWriter(us, key, i) :: Lookup(Merge(s, us).vars, key) == Some(us[i].vars[key])
    ensures forall key | Untouched(us, key) :: Lookup(Merge(s, us).vars, key) == Lookup(s.vars, key)
    ensures Merge(s, us).status ==
      if AnyFailed(us) then Some(Failed) else if AnyStatus(us) then Some(Ok) else s.status
  {
    ApplyAllChannels(s, us);
    forall key, i | LastWriter(us, key, i)
      ensures Lookup(Merge(s, us).vars, key) == Some(us[i].vars[key])
    {
      LastWriteWins(s, us, key, i);
    }
    forall key | Untouched(us, key)
      ensures Lookup(Merge(s, us).vars, key) == Lookup(s.vars, key)
    {
      UntouchedKept(s, us, key);
    }
  }

  ghost predicate DistinctFromNode(us: seq<Update>, names: seq<string>) {
    && |us| == |names|
    && (forall i, j | 0 <= i < j < |names| :: names[i] != names[j])
    && (forall i | 0 <= i < |us| :: exists text, st :: us[i] == FromNode(names[i], text, st))
  }

  /** Updates built by `FromNode` for distinct nodes commute on the status and on the
      variables: whichever order they are merged in, only the transcript order differs. */
  lemma MergeOrderIrrelevant(s: State, us: seq<Update>, vs: seq<Update>, names: seq<string>, others: seq<string>)
    requires DistinctFromNode(us, names) && DistinctFromNode(vs, others)
    requires multiset(us) == multiset(vs)
    ensures Merge(s, us).vars == Merge(s, vs).vars
    ensures Merge(s, us).status == Merge(s, vs).status
  {
    SameMembers(us, vs);
    forall key ensures Lookup(Merge(s, us).vars, key) == Lookup(Merge(s, vs).vars, key) {
      SameVar(s, us, vs, names, others, key);
    }
    SameLookups(Merge(s, us).vars, Merge(s, vs).vars);
    ApplyAllChannels(s, us);
    ApplyAllChannels(s, vs);
  }

  lemma SameLookups(u: map<string, string>, v: map<string, string>)
    requires forall key :: Lookup(u, key) == Lookup(v, key)
    ensures u == v
  {
    forall key ensures key in u <==> key in v {
      assert Lookup(u, key) == Lookup(v, key);
    }
    forall key | key in u ensures u[key] == v[key] {
      assert Lookup(u, key) == Lookup(v, key);
    }
  }

  lemma SameVar(s: State, us: seq<Update>, vs: seq<Update>, names: seq<string>, others: seq<string>, key: string)
    requires DistinctFromNode(us, names) && DistinctFromNode(vs, others)
    requires forall u :: u in us <==> u in vs
    ensures Lookup(Merge(s, us).vars, key) == Lookup(Merge(s, vs).vars, key)
  {
    if i :| 0 <= i < |us| && key in us[i].vars {
      assert us[i] in vs;
      var j :| 0 <= j < |vs| && vs[j] == us[i];
      OnlyWriter(us, names, key, i);
      OnlyWriter(vs, others, key, j);
      LastWriteWins(s, us, key, i);
      LastWriteWins(s, vs, key, j);
    } else {
      assert forall j | 0 <= j < |vs| :: vs[j] in us;
      UntouchedKept(s, us, key);
      UntouchedKept(s, vs, key);
    }
  }

  lemma OnlyWriter(us: seq<Update>, names: seq<string>, k: string, i: nat)
    requires DistinctFromNode(us, names) && i < |us| && k in us[i].vars
    ensures LastWriter(us, k, i)
  {
    var text, st :| us[i] == FromNode(names[i], text, st);
    forall j | i < j < |us| ensures k !in us[j].vars {
      var text', st' :| us[j] == FromNode(names[j], text', st');
    }
  }

  lemma SameMembers(us: seq<Update>, vs: seq<Update>)
    requires multiset(us) == multiset(vs)
    ensures forall u :: u in us <==> u in vs
    ensures AnyStatus(us) <==> AnyStatus(vs)
    ensures AnyFailed(us) <==> AnyFailed(vs)
  {
    forall u ensures u in us <==> u in vs {
      assert u in us <==> u in multiset(us);
      assert u in vs <==> u in multiset(vs);
    }
    assert forall i | 0 <= i < |us| :: us[i] in vs;
    assert forall i | 0 <= i < |vs| :: vs[i] in us;
  }
}
