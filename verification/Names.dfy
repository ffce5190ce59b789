/** Node names and the canonical frontier: sorted by name, each name once. */
module Names {

  /** The order in which names are sorted: character by character. */
  predicate Less(a: string, b: string) {
    if a == [] then b != []
    else if b == [] then false
    else a[0] < b[0] || (a[0] == b[0] && Less(a[1..], b[1..]))
  }

  /** At the first difference the smaller character comes first; a proper prefix comes before what
      it begins. */
  lemma {:induction false} LessMeans(a: string, b: string)
    ensures Less(a, b) <==> exists n: nat :: DifferAt(a, b, n) && (n == |a| || (n < |b| && a[n] < b[n]))
  {
    if a != [] && b != [] && a[0] == b[0] {
      LessMeans(a[1..], b[1..]);
      forall n: nat | DifferAt(a[1..], b[1..], n) ensures DifferAt(a, b, n + 1) {
        assert a[..n + 1] == [a[0]] + a[1..][..n] && b[..n + 1] == [b[0]] + b[1..][..n];
      }
      forall n: nat | DifferAt(a, b, n) ensures n > 0 && DifferAt(a[1..], b[1..], n - 1) {
        assert a[1..][..n - 1] == a[..n][1..] && b[1..][..n - 1] == b[..n][1..];
      }
    } else {
      assert a[..0] == b[..0];
      assert a != b ==> DifferAt(a, b, 0);
    }
  }

  /** The names agree on their first `n` characters and no further. */
  ghost predicate DifferAt(a: string, b: string, n: nat) {
    n <= |a| && n <= |b| && a[..n] == b[..n] && a != b && (n < |a| && n < |b| ==> a[n] != b[n])
  }

  lemma {:induction false} LessTransitive(a: string, b: string, c: string)
    requires Less(a, b) && Less(b, c)
    ensures Less(a, c)
  {
    if a != [] && a[0] == b[0] == c[0] {
      LessTransitive(a[1..], b[1..], c[1..]);
    }
  }

  lemma {:induction false} LessTotal(a: string, b: string)
    ensures a == b || Less(a, b) || Less(b, a)
    ensures !(Less(a, b) && (a == b || Less(b, a)))
  {
    if a != [] && b != [] {
      LessTotal(a[1..], b[1..]);
      if a[0] == b[0] {
        assert a == [a[0]] + a[1..] && b == [b[0]] + b[1..];
      }
    }
  }

  ghost predicate StrictlySorted(s: seq<string>) {
    forall i, j | 0 <= i < j < |s| :: Less(s[i], s[j])
  }

  ghost predicate SameNames(a: seq<string>, b: seq<string>) {
    forall x :: x in a <==> x in b
  }

  /** Puts `x` in its place, unless it is there already. */
  function Insert(x: string, s: seq<string>): (r: seq<string>)
    requires StrictlySorted(s)
    ensures StrictlySorted(r)
    ensures forall y :: y in r <==> y == x || y in s
  {
    if s == [] then [x]
    else if x == s[0] then s
    else if Less(x, s[0]) then
      assert forall i | 0 < i < |s| :: Less(x, s[i]) by {
        forall i | 0 < i < |s| ensures Less(x, s[i]) { LessTransitive(x, s[0], s[i]); }
      }
      [x] + s
    else
      LessTotal(x, s[0]);
      var rest := Insert(x, s[1..]);
      assert forall y :: y in s <==> y == s[0] || y in s[1..];
      assert forall i | 0 <= i < |rest| :: rest[i] in rest && Less(s[0], rest[i]);
      [s[0]] + rest
  }

  /** What sorting and then deduplicating a frontier leaves. */
  function Canonical(s: seq<string>): (r: seq<string>)
    ensures StrictlySorted(r)
    ensures SameNames(r, s)
  {
    if s == [] then []
    else
      assert forall y :: y in s <==> y == s[0] || y in s[1..];
      Insert(s[0], Canonical(s[1..]))
  }

  /** A strictly sorted list is determined by the names in it. */
  lemma {:induction false} StrictlySortedUnique(a: seq<string>, b: seq<string>)
    requires StrictlySorted(a) && StrictlySorted(b) && SameNames(a, b)
    ensures a == b
  {
    assert forall i | 0 <= i < |a| :: a[i] in b;
    assert forall i | 0 <= i < |b| :: b[i] in a;
    if a != [] && b != [] {
      assert a[0] in b && b[0] in a;
      var i :| 0 <= i < |b| && b[i] == a[0];
      var j :| 0 <= j < |a| && a[j] == b[0];
      LessTotal(a[0], b[0]);
      assert a[0] == b[0];
      forall x ensures x in a[1..] <==> x in b[1..] {
        assert x in a <==> x == a[0] || x in a[1..];
        assert x in b <==> x == b[0] || x in b[1..];
        LessTotal(a[0], a[0]);
        if x in a[1..] { assert Less(a[0], x); }
        if x in b[1..] { assert Less(b[0], x); }
      }
      StrictlySortedUnique(a[1..], b[1..]);
    }
  }

  /** The canonical frontier depends only on which names were discovered: not on the order
      of discovery and not on how many predecessors discovered the same name. */
  lemma CanonicalIgnoresDiscovery(a: seq<string>, b: seq<string>)
    ensures SameNames(a, b) <==> Canonical(a) == Canonical(b)
  {
    if SameNames(a, b) {
      StrictlySortedUnique(Canonical(a), Canonical(b));
    }
  }

  /** A frontier taken from a checkpoint is already canonical. */
  lemma CanonicalIdempotent(s: seq<string>)
    ensures Canonical(Canonical(s)) == Canonical(s)
  {
    CanonicalIgnoresDiscovery(Canonical(s), s);
  }
}
