/** The environments a run provisions, and their cleanup when the run ends. */
module Sandboxes {
  import opened Wrappers

  /** What happened at the sandbox backend: a request that returned an environment or an error, an
      environment that was made for a request nobody waits for any more, a destroy attempt. */
  datatype Act = Granted(id: string) | Refused | Abandoned(id: string) | Destroying(id: string)

  function OneIf(take: bool, act: Act): multiset<string> {
    if take && !act.Refused? then multiset{act.id} else multiset{}
  }

  /** The environments that requests returned. */
  function Grants(log: seq<Act>): multiset<string> {
    if log == [] then multiset{} else OneIf(log[0].Granted?, log[0]) + Grants(log[1..])
  }

  /** The environments that were made and never returned. */
  function Abandons(log: seq<Act>): multiset<string> {
    if log == [] then multiset{} else OneIf(log[0].Abandoned?, log[0]) + Abandons(log[1..])
  }

  /** The environments that a destroy was attempted for, however the attempts ended. */
  function Destroys(log: seq<Act>): multiset<string> {
    if log == [] then multiset{} else OneIf(log[0].Destroying?, log[0]) + Destroys(log[1..])
  }

  /** Every environment that the backend made. */
  function Created(log: seq<Act>): multiset<string> {
    Grants(log) + Abandons(log)
  }

  lemma {:induction false} ActsConcat(a: seq<Act>, b: seq<Act>)
    ensures Grants(a + b) == Grants(a) + Grants(b)
    ensures Abandons(a + b) == Abandons(a) + Abandons(b)
    ensures Destroys(a + b) == Destroys(a) + Destroys(b)
  {
    hide OneIf;
    if a == [] {
      assert a + b == b;
    } else {
      assert (a + b)[0] == a[0] && (a + b)[1..] == a[1..] + b;
      ActsConcat(a[1..], b);
    }
  }

  lemma OneAct(act: Act)
    ensures Grants([act]) == OneIf(act.Granted?, act)
    ensures Abandons([act]) == OneIf(act.Abandoned?, act)
    ensures Destroys([act]) == OneIf(act.Destroying?, act)
  {
    assert [act][1..] == [];
  }

  class Sandboxes {
    var provisioned: seq<string>
    ghost var log: seq<Act>

    /** What was granted is either waiting for its destroy or has had it. */
    ghost predicate Tracked()
      reads this
    {
      Grants(log) == multiset(provisioned) + Destroys(log)
    }

    /** The backend has seen exactly `acts`, and everything granted is tracked. */
    ghost predicate Did(acts: seq<Act>)
      reads this
    {
      log == acts && Tracked()
    }

    constructor ()
      ensures Did([]) && provisioned == []
    {
      provisioned, log := [], [];
    }

    ghost method Note(act: Act)
      modifies this`log
      ensures log == old(log) + [act]
      ensures Grants(log) == old(Grants(log)) + OneIf(act.Granted?, act)
      ensures Abandons(log) == old(Abandons(log)) + OneIf(act.Abandoned?, act)
      ensures Destroys(log) == old(Destroys(log)) + OneIf(act.Destroying?, act)
    {
      ActsConcat(log, [act]);
      OneAct(act);
      log := log + [act];
    }

    /** Asks the backend for an environment; only a successful answer is tracked. */
    method Provision(answer: Option<string>, ghost acts: seq<Act>) returns (id: Option<string>)
      requires Did(acts)
      modifies this
      ensures Did(acts + [if answer.Some? then Granted(answer.value) else Refused]) && id == answer
    {
      hide Grants, Abandons, Destroys;
      match answer {
        case None => Note(Refused);
        case Some(got) =>
          Note(Granted(got));
          provisioned := provisioned + [got];
      }
      return answer;
    }

    /** The backend makes an environment for a request that is dropped before it returns. */
    ghost method Abandon(id: string, acts: seq<Act>)
      requires Did(acts)
      modifies this`log
      ensures Did(acts + [Abandoned(id)])
    {
      hide Grants, Abandons, Destroys;
      Note(Abandoned(id));
    }

    /** Attempts to destroy every tracked environment once; afterwards none is tracked, so a
        second cleanup attempts nothing. */
    method CleanupAll(ghost acts: seq<Act>)
      requires Did(acts)
      modifies this
      ensures Tracked() && provisioned == []
      ensures Grants(log) == Grants(acts) == Destroys(log) && Abandons(log) == Abandons(acts)
      ensures old(provisioned) == [] ==> log == acts
    {
      hide Grants, Abandons, Destroys;
      var ids := provisioned;
      provisioned := [];
      ghost var before := Destroys(log);
      for i := 0 to |ids|
        invariant provisioned == [] && Grants(log) == Grants(acts) && Abandons(log) == Abandons(acts)
        invariant Destroys(log) == before + multiset(ids[..i])
        invariant i == 0 ==> log == acts
      {
        assert ids[..i + 1] == ids[..i] + [ids[i]];
        Note(Destroying(ids[i]));
      }
      assert ids[..|ids|] == ids;
    }
  }
}
