/** The durable checkpoint table: one row per run, rewritten at every super-step. */
module Checkpoints {
  import opened Wrappers
  import opened Channels

  datatype RunState = Running | Suspended | Completed | Failed {
    predicate IsResumable() {
      Running? || Suspended?
    }
  }

  datatype Checkpoint = Checkpoint(blueprint: string, step: nat, frontier: seq<string>, state: State)

  datatype Row = Row(checkpoint: Checkpoint, status: RunState)

  /** A write the executor attempts; `ok` says whether the table took it. */
  datatype Write = Save(checkpoint: Checkpoint, ok: bool) | SetStatus(status: RunState, ok: bool)

  /** The row after one write: a save replaces it and marks it running, a status change keeps
      the snapshot and does nothing when there is no row, a refused write does nothing. */
  function Written(row: Option<Row>, w: Write): Option<Row> {
    if !w.ok then row
    else match w
      case Save(cp, _) => Some(Row(cp, Running))
      case SetStatus(st, _) => if row.Some? then Some(Row(row.value.checkpoint, st)) else None
  }

  function AllWritten(row: Option<Row>, ws: seq<Write>): Option<Row> {
    if ws == [] then row else Written(AllWritten(row, ws[..|ws| - 1]), ws[|ws| - 1])
  }

  /** Writing is sequential: the row after two lists is the row after their concatenation. */
  lemma {:induction false} AllWrittenConcat(row: Option<Row>, a: seq<Write>, b: seq<Write>)
    ensures AllWritten(row, a + b) == AllWritten(AllWritten(row, a), b)
  {
    if b == [] {
      assert a + b == a;
    } else {
      AllWrittenConcat(row, a, b[..|b| - 1]);
      assert (a + b)[..|a + b| - 1] == a + b[..|b| - 1];
    }
  }

  function Tagged(id: string, ws: seq<Write>): seq<(string, Write)> {
    seq(|ws|, i requires 0 <= i < |ws| => (id, ws[i]))
  }

  /** The writes of one run among those of all runs. */
  function Own(log: seq<(string, Write)>, id: string): seq<Write> {
    if log == [] then []
    else Own(log[..|log| - 1], id) + if log[|log| - 1].0 == id then [log[|log| - 1].1] else []
  }

  /** A run's writes reach its own row in order and no other row. */
  lemma {:induction false} OwnTagged(log: seq<(string, Write)>, id: string, ws: seq<Write>, other: string)
    ensures Own(log + Tagged(id, ws), other) == Own(log, other) + if other == id then ws else []
  {
    if ws == [] {
      assert log + Tagged(id, ws) == log;
    } else {
      var init := ws[..|ws| - 1];
      OwnTagged(log, id, init, other);
      assert Tagged(id, ws) == Tagged(id, init) + [(id, ws[|ws| - 1])];
      var all := log + Tagged(id, ws);
      assert all[..|all| - 1] == log + Tagged(id, init);
      assert init + [ws[|ws| - 1]] == ws;
    }
  }

  class Store {
    var rows: map<string, Row>
    /** Every write attempted for any run, in order. */
    ghost var log: seq<(string, Write)>

    /** The table is what the accepted writes of each run add up to. */
    ghost predicate Valid()
      reads this
    {
      forall id :: Get(id) == AllWritten(None, Own(log, id))
    }

    constructor ()
      ensures Valid() && rows == map[] && log == []
    {
      rows := map[];
      log := [];
    }

    /** The row of a run, if there is one. */
    function Get(id: string): Option<Row>
      reads this
    {
      if id in rows then Some(rows[id]) else None
    }

    /** What a run's writes did to the table, once they are in the log. */
    lemma Grown(before: seq<(string, Write)>, id: string, ws: seq<Write>)
      requires Valid() && log == before + Tagged(id, ws)
      ensures Get(id) == AllWritten(AllWritten(None, Own(before, id)), ws)
      ensures forall other | other != id :: Get(other) == AllWritten(None, Own(before, other))
    {
      RowsAfter(before, id, ws, id);
      forall other | other != id ensures Get(other) == AllWritten(None, Own(before, other)) {
        RowsAfter(before, id, ws, other);
      }
    }

    /** Inserts or replaces the snapshot of one run; other runs keep theirs. */
    method Upsert(id: string, cp: Checkpoint, ok: bool)
      requires Valid()
      modifies this
      ensures Valid() && log == old(log) + [(id, Save(cp, ok))]
      ensures Get(id) == if ok then Some(Row(cp, Running)) else old(Get(id))
      ensures forall other | other != id :: Get(other) == old(Get(other))
    {
      if ok {
        rows := rows[id := Row(cp, Running)];
      }
      log := log + [(id, Save(cp, ok))];
      assert log[..|log| - 1] == old(log);
      forall other ensures Get(other) == AllWritten(None, Own(log, other)) {
        Appended(old(log), id, Save(cp, ok), other);
      }
    }

    /** Changes only the status of one run; a run without a row stays without one. */
    method UpdateStatus(id: string, status: RunState, ok: bool)
      requires Valid()
      modifies this
      ensures Valid() && log == old(log) + [(id, SetStatus(status, ok))]
      ensures ok && id in old(rows) ==> Get(id) == Some(Row(old(rows[id].checkpoint), status))
      ensures !ok || id !in old(rows) ==> rows == old(rows)
      ensures forall other | other != id :: Get(other) == old(Get(other))
    {
      if ok && id in rows {
        rows := rows[id := Row(rows[id].checkpoint, status)];
      }
      log := log + [(id, SetStatus(status, ok))];
      forall other ensures Get(other) == AllWritten(None, Own(log, other)) {
        Appended(old(log), id, SetStatus(status, ok), other);
      }
    }
  }

  /** The rows after a run's writes: its own row has taken them in order, the others are as
      before. */
  lemma RowsAfter(log: seq<(string, Write)>, id: string, ws: seq<Write>, other: string)
    ensures AllWritten(None, Own(log + Tagged(id, ws), other)) ==
      if other == id then AllWritten(AllWritten(None, Own(log, id)), ws) else AllWritten(None, Own(log, other))
  {
    OwnTagged(log, id, ws, other);
    if other == id {
      AllWrittenConcat(None, Own(log, id), ws);
    } else {
      assert Own(log, other) + [] == Own(log, other);
    }
  }

  lemma Appended(log: seq<(string, Write)>, id: string, w: Write, other: string)
    ensures AllWritten(None, Own(log + [(id, w)], other)) ==
      if other == id then Written(AllWritten(None, Own(log, id)), w) else AllWritten(None, Own(log, other))
  {
    assert Tagged(id, [w]) == [(id, w)];
    RowsAfter(log, id, [w], other);
    assert [w][..0] == [];
  }
}
