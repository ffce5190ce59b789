/** Confining the paths that tools are given to the workspace root. */
module Paths {
  import opened Wrappers

  datatype Part = Current | Parent | Normal(name: string)

  /** A path as its components: rooted or not, and the parts after the root. */
  datatype Path = Path(absolute: bool, parts: seq<Part>)

  // ----- lexical normalisation -----

  function Push(absolute: bool, done: seq<Part>, part: Part): seq<Part> {
    match part
    case Current => done
    case Normal(_) => done + [part]
    case Parent =>
      if done != [] && done[|done| - 1].Normal? then done[..|done| - 1]
      else if done == [] && absolute then done
      else done + [Parent]
  }

  function Normalized(absolute: bool, parts: seq<Part>): seq<Part> {
    if parts == [] then [] else Push(absolute, Normalized(absolute, parts[..|parts| - 1]), parts[|parts| - 1])
  }

  method LexicalNormalize(path: Path) returns (out: Path)
    ensures out == Path(path.absolute, Normalized(path.absolute, path.parts))
  {
    var done: seq<Part> := [];
    for i := 0 to |path.parts|
      invariant done == Normalized(path.absolute, path.parts[..i])
    {
      assert path.parts[..i + 1][..i] == path.parts[..i];
      match path.parts[i] {
        case Parent =>
          if done != [] && done[|done| - 1].Normal? {
            done := done[..|done| - 1];
          } else if done == [] && path.absolute {
          } else {
            done := done + [Parent];
          }
        case Current =>
        case Normal(name) => done := done + [Normal(name)];
      }
    }
    assert path.parts[..|path.parts|] == path.parts;
    out := Path(path.absolute, done);
  }

  /** `..` only as a leading block, and not at all in an absolute path. */
  ghost predicate Tidy(absolute: bool, parts: seq<Part>) {
    && (forall i | 0 <= i < |parts| :: !parts[i].Current?)
    && (forall i | 0 <= i < |parts| && parts[i].Parent? :: !absolute && (i == 0 || parts[i - 1].Parent?))
  }

  lemma {:induction false} NormalizedIsTidy(absolute: bool, parts: seq<Part>)
    ensures Tidy(absolute, Normalized(absolute, parts))
  {
    if parts != [] {
      NormalizedIsTidy(absolute, parts[..|parts| - 1]);
    }
  }

  /** Tidy paths are the fixed points, so normalising twice changes nothing more. */
  lemma {:induction false} TidyIsNormalized(absolute: bool, parts: seq<Part>)
    requires Tidy(absolute, parts)
    ensures Normalized(absolute, parts) == parts
  {
    if parts != [] {
      var n := |parts| - 1;
      TidyIsNormalized(absolute, parts[..n]);
      assert parts == parts[..n] + [parts[n]];
    }
  }

  lemma NormalizeTwice(absolute: bool, parts: seq<Part>)
    ensures Normalized(absolute, Normalized(absolute, parts)) == Normalized(absolute, parts)
  {
    NormalizedIsTidy(absolute, parts);
    TidyIsNormalized(absolute, Normalized(absolute, parts));
  }

  // ----- walking a tree without symbolic links -----

  /** Where a walk from the directory `at` ends; the parent of the root is the root. */
  function Walk(at: seq<string>, parts: seq<Part>): seq<string> {
    if parts == [] then at
    else
      var here := Walk(at, parts[..|parts| - 1]);
      match parts[|parts| - 1]
      case Current => here
      case Parent => if here == [] then [] else here[..|here| - 1]
      case Normal(name) => here + [name]
  }

  lemma WalkSnoc(at: seq<string>, parts: seq<Part>, part: Part)
    ensures var here := Walk(at, parts);
      Walk(at, parts + [part]) == match part
        case Current => here
        case Parent => if here == [] then [] else here[..|here| - 1]
        case Normal(name) => here + [name]
  {
    assert (parts + [part])[..|parts|] == parts;
  }

  lemma {:induction false} WalkConcat(at: seq<string>, a: seq<Part>, b: seq<Part>)
    ensures Walk(at, a + b) == Walk(Walk(at, a), b)
  {
    if b == [] {
      assert a + b == a;
    } else {
      var n := |b| - 1;
      WalkConcat(at, a, b[..n]);
      assert (a + b)[..|a + b| - 1] == a + b[..n];
    }
  }

  /** Normalising does not change where a path leads, from any directory for a relative path,
      from the root for an absolute one. */
  lemma {:induction false} NormalizedLeadsToTheSamePlace(absolute: bool, at: seq<string>, parts: seq<Part>)
    requires absolute ==> at == []
    ensures Walk(at, Normalized(absolute, parts)) == Walk(at, parts)
  {
    if parts != [] {
      hide Push;
      var n := |parts| - 1;
      NormalizedLeadsToTheSamePlace(absolute, at, parts[..n]);
      PushWalks(absolute, at, Normalized(absolute, parts[..n]), parts[n]);
      WalkSnoc(at, Normalized(absolute, parts[..n]), parts[n]);
    }
  }

  lemma PushWalks(absolute: bool, at: seq<string>, done: seq<Part>, part: Part)
    requires absolute ==> at == []
    ensures Walk(at, Push(absolute, done, part)) == Walk(at, done + [part])
  {
    WalkSnoc(at, done, part);
    if done != [] {
      var n := |done| - 1;
      WalkSnoc(at, done[..n], done[n]);
      assert done == done[..n] + [done[n]];
    }
  }

  function Named(names: seq<string>): seq<Part> {
    seq(|names|, i requires 0 <= i < |names| => Normal(names[i]))
  }

  lemma {:induction false} WalkNamed(at: seq<string>, names: seq<string>)
    ensures Walk(at, Named(names)) == at + names
  {
    if names != [] {
      var n := |names| - 1;
      WalkNamed(at, names[..n]);
      assert Named(names)[..n] == Named(names[..n]);
      assert at + names == (at + names[..n]) + [names[n]];
    } else {
      assert at + names == at;
    }
  }

  // ----- confinement -----

  datatype PathError = RootNotAbsolute | OutsideRoot

  /** Which absolute paths exist, and the link-free path each one names. */
  type Tree = seq<string> -> Option<seq<string>>

  /** The names of a path that has only normal parts. */
  function Names(parts: seq<Part>): (r: seq<string>)
    requires forall i | 0 <= i < |parts| :: parts[i].Normal?
    ensures |r| == |parts|
  {
    seq(|parts|, i requires 0 <= i < |parts| => parts[i].name)
  }

  /** Resolves the longest ancestor of at most `n` names that exists, and keeps the rest. */
  function ResolveExistingPrefix(tree: Tree, names: seq<string>, n: nat): seq<string>
    requires n <= |names|
  {
    match tree(names[..n])
    case Some(canonical) => canonical + names[n..]
    case None => if n == 0 then names else ResolveExistingPrefix(tree, names, n - 1)
  }

  function Joined(root: Path, requested: Path): seq<Part> {
    if requested.absolute then requested.parts else root.parts + requested.parts
  }

  /** The path a tool may use. Whatever links the tree holds, a path that is accepted is the
      root followed by names only. */
  function ConfineWithin(tree: Tree, root: Option<Path>, requested: Path): (r: Result<Path, PathError>)
    ensures root.Some? && r.Success? ==>
      && root.value.absolute && r.value.absolute && root.value.parts <= r.value.parts
      && forall i | 0 <= i < |r.value.parts| :: r.value.parts[i].Normal?
    ensures root.None? ==> r == Success(requested)
    ensures root.Some? ==> (r == Failure(RootNotAbsolute) <==> !root.value.absolute)
  {
    if root.None? then Success(requested)
    else if !root.value.absolute then Failure(RootNotAbsolute)
    else
      var joined := Normalized(true, Joined(root.value, requested));
      NormalizedIsTidy(true, Joined(root.value, requested));
      var resolved := Named(ResolveExistingPrefix(tree, Names(joined), |joined|));
      if root.value.parts <= resolved then Success(Path(true, resolved)) else Failure(OutsideRoot)
  }

  // ----- confinement whatever links there are -----

  /** The first `n` names are the longest leading part of the names that exists. */
  ghost predicate ExistsUpTo(tree: Tree, names: seq<string>, n: nat) {
    n <= |names| && tree(names[..n]).Some? && forall m | n < m <= |names| :: tree(names[..m]).None?
  }

  ghost predicate NothingExists(tree: Tree, names: seq<string>) {
    forall m | 0 <= m <= |names| :: tree(names[..m]).None?
  }

  /** Where names lead through the links of the tree: to the canonical form of the longest part
      that exists, followed by the names after it. */
  ghost predicate LeadsTo(tree: Tree, names: seq<string>, place: seq<string>) {
    || (NothingExists(tree, names) && place == names)
    || exists n: nat :: ExistsUpTo(tree, names, n) && place == tree(names[..n]).value + names[n..]
  }

  /** Names lead to one place. */
  lemma LeadsToOnePlace(tree: Tree, names: seq<string>, a: seq<string>, b: seq<string>)
    requires LeadsTo(tree, names, a) && LeadsTo(tree, names, b)
    ensures a == b
  {
    forall m: nat, n: nat | ExistsUpTo(tree, names, m) && ExistsUpTo(tree, names, n) ensures m == n {
    }
  }

  lemma {:induction false} ResolvesTheLongest(tree: Tree, names: seq<string>, n: nat)
    requires n <= |names| && forall m | n < m <= |names| :: tree(names[..m]).None?
    ensures LeadsTo(tree, names, ResolveExistingPrefix(tree, names, n))
  {
    if tree(names[..n]).Some? {
      assert ExistsUpTo(tree, names, n);
    } else if n > 0 {
      ResolvesTheLongest(tree, names, n - 1);
    }
  }

  /** For every tree: a path is accepted exactly when the place that it leads to, through whatever
      links there are, lies in the root; and what is returned is that place. */
  lemma AcceptedIffItLeadsInside(tree: Tree, root: Path, requested: Path) returns (place: seq<string>)
    requires root.absolute
    ensures LeadsTo(tree, Walk([], if requested.absolute then requested.parts else root.parts + requested.parts), place)
    ensures ConfineWithin(tree, Some(root), requested)
      == if root.parts <= Named(place) then Success(Path(true, Named(place))) else Failure(OutsideRoot)
  {
    var parts := Joined(root, requested);
    NormalizedIsTheEnd(parts);
    var names := Walk([], parts);
    hide Walk, Named, Normalized;
    ResolvesTheLongest(tree, names, |names|);
    place := ResolveExistingPrefix(tree, names, |names|);
  }

  /** A link that leads out of the root is never followed: a path that exists and is really outside
      is refused, wherever it seems to be. */
  lemma LinkOutIsRefused(tree: Tree, root: Path, requested: Path)
    requires root.absolute
    requires var names := Walk([], if requested.absolute then requested.parts else root.parts + requested.parts);
      tree(names).Some? && !(root.parts <= Named(tree(names).value))
    ensures ConfineWithin(tree, Some(root), requested) == Failure(OutsideRoot)
  {
    var place := AcceptedIffItLeadsInside(tree, root, requested);
    var names := Walk([], if requested.absolute then requested.parts else root.parts + requested.parts);
    hide Walk, Named, ConfineWithin;
    assert names[..|names|] == names;
    assert ExistsUpTo(tree, names, |names|);
    assert tree(names).value + [] == tree(names).value;
    LeadsToOnePlace(tree, names, place, tree(names).value);
  }

  // ----- confinement without links -----

  /** The tree has no symbolic links: existing paths are their own canonical form. */
  ghost predicate LinkFree(tree: Tree) {
    forall names :: tree(names).Some? ==> tree(names).value == names
  }

  lemma {:induction false} ResolvesToItself(tree: Tree, names: seq<string>, n: nat)
    requires LinkFree(tree) && n <= |names|
    ensures ResolveExistingPrefix(tree, names, n) == names
  {
    if tree(names[..n]).Some? {
      assert names == names[..n] + names[n..];
    } else if n > 0 {
      ResolvesToItself(tree, names, n - 1);
    }
  }

  /** Without links a path is accepted exactly when walking it, component by component, ends
      inside the root; and what is returned is where the walk ends. */
  lemma AcceptedIffTheWalkEndsInside(tree: Tree, root: seq<string>, requested: Path)
    requires LinkFree(tree)
    ensures var end := Walk(if requested.absolute then [] else root, requested.parts);
      ConfineWithin(tree, Some(Path(true, Named(root))), requested)
      == if root <= end then Success(Path(true, Named(end))) else Failure(OutsideRoot)
  {
    var parts := Joined(Path(true, Named(root)), requested);
    JoinedLeadsToTheEnd(root, requested);
    NormalizedIsTheEnd(parts);
    hide Walk, Named, Normalized, Joined;
    var end := Walk([], parts);
    ResolvesToItself(tree, end, |end|);
    PrefixNamed(root, end);
  }

  lemma JoinedLeadsToTheEnd(root: seq<string>, requested: Path)
    ensures Walk([], Joined(Path(true, Named(root)), requested))
         == Walk(if requested.absolute then [] else root, requested.parts)
  {
    WalkNamed([], root);
    assert [] + root == root;
    WalkConcat([], Named(root), requested.parts);
  }

  /** A normalised absolute path spells out where it leads. */
  lemma NormalizedIsTheEnd(parts: seq<Part>)
    ensures var joined := Normalized(true, parts);
      (forall i | 0 <= i < |joined| :: joined[i].Normal?) && Names(joined) == Walk([], parts)
  {
    NormalizedIsTidy(true, parts);
    NormalizedLeadsToTheSamePlace(true, [], parts);
    hide Walk, Normalized;
    var joined := Normalized(true, parts);
    var names := Names(joined);
    assert joined == Named(names);
    WalkNamed([], names);
    assert [] + names == names;
  }

  lemma PrefixNamed(a: seq<string>, b: seq<string>)
    ensures a <= b <==> Named(a) <= Named(b)
  {
    if Named(a) <= Named(b) {
      forall i | 0 <= i < |a| ensures a[i] == b[i] {
        assert Named(a)[i] == Named(b)[i];
      }
    }
  }
}
