/** Editing a file by replacing one occurrence of a text. Files are their UTF-8 bytes. */
module UniqueEdit {
  import opened Wrappers

  type Bytes = seq<Byte>

  const NEWLINE: Byte := 10

  datatype EditError = EmptyOld | Noop | NotFound | Ambiguous(lines: seq<nat>)

  datatype Edit = Edit(content: Bytes, line: nat)

  /** `text` occurs at `i`. */
  predicate At(content: Bytes, text: Bytes, i: int) {
    0 <= i <= |content| - |text| && content[i..i + |text|] == text
  }

  /** The first occurrence from `start` on. */
  function Find(content: Bytes, text: Bytes, start: nat): (r: Option<nat>)
    requires start <= |content|
    ensures r.Some? ==> start <= r.value <= |content| - |text| && At(content, text, r.value)
    decreases |content| - start
  {
    if At(content, text, start) then Some(start)
    else if start == |content| then None
    else Find(content, text, start + 1)
  }

  lemma {:induction false} FindIsFirst(content: Bytes, text: Bytes, start: nat, i: nat)
    requires start <= i && At(content, text, i)
    ensures Find(content, text, start).Some? && Find(content, text, start).value <= i
    decreases |content| - start
  {
    if !At(content, text, start) {
      FindIsFirst(content, text, start + 1, i);
    }
  }

  function Newlines(s: Bytes): nat {
    if s == [] then 0 else Newlines(s[..|s| - 1]) + if s[|s| - 1] == NEWLINE then 1 else 0
  }

  function LineOf(content: Bytes, i: nat): nat
    requires i <= |content|
  {
    1 + Newlines(content[..i])
  }

  method LineOfByte(content: Bytes, i: nat) returns (line: nat)
    requires i <= |content|
    ensures line == LineOf(content, i)
  {
    var count := 0;
    for k := 0 to i
      invariant count == Newlines(content[..k])
    {
      assert content[..k + 1][..k] == content[..k];
      if content[k] == NEWLINE {
        count := count + 1;
      }
    }
    return count + 1;
  }

  /** The scan that takes the next occurrence and goes on after it. */
  function Scan(content: Bytes, text: Bytes, start: nat): seq<nat>
    requires text != [] && start <= |content|
    decreases |content| - start
  {
    match Find(content, text, start)
    case None => []
    case Some(i) => [i] + Scan(content, text, i + |text|)
  }

  /** The lines of the scan's occurrences. */
  function ScanLines(content: Bytes, text: Bytes, start: nat): seq<nat>
    requires text != [] && start <= |content|
    decreases |content| - start
  {
    match Find(content, text, start)
    case None => []
    case Some(i) => [LineOf(content, i)] + ScanLines(content, text, i + |text|)
  }

  lemma {:induction false} LinesMatch(content: Bytes, text: Bytes, start: nat)
    requires text != [] && start <= |content|
    ensures var at, lines := Scan(content, text, start), ScanLines(content, text, start);
      |lines| == |at| && forall k | 0 <= k < |at| :: at[k] <= |content| && lines[k] == LineOf(content, at[k])
    decreases |content| - start
  {
    hide At, Find, LineOf;
    var first := Find(content, text, start);
    if first.Some? {
      LinesMatch(content, text, first.value + |text|);
    }
  }

  /** The lines gathered so far and those still to come. */
  ghost predicate Gathered(all: seq<nat>, lines: seq<nat>, content: Bytes, text: Bytes, start: nat) {
    text != [] && start <= |content| && all == lines + ScanLines(content, text, start)
  }

  lemma GatherNext(all: seq<nat>, lines: seq<nat>, content: Bytes, text: Bytes, start: nat)
    requires Gathered(all, lines, content, text, start)
    ensures match Find(content, text, start)
      case None => all == lines
      case Some(i) => Gathered(all, lines + [LineOf(content, i)], content, text, i + |text|)
  {
    hide LineOf;
  }

  /** The 1-based lines of the non-overlapping occurrences. */
  method MatchLineNumbers(content: Bytes, needle: Bytes) returns (lines: seq<nat>)
    ensures lines == if needle == [] then [] else ScanLines(content, needle, 0)
  {
    if needle == [] {
      return [];
    }
    hide At, Find, LineOf, Gathered;
    lines := [];
    ghost var all := ScanLines(content, needle, 0);
    assert Gathered(all, lines, content, needle, 0) by { NothingGathered(content, needle); }
    var start := 0;
    var next := Find(content, needle, start);
    while next.Some?
      invariant start <= |content| && next == Find(content, needle, start)
      invariant Gathered(all, lines, content, needle, start)
      decreases |content| - start
    {
      GatherNext(all, lines, content, needle, start);
      var line := LineOfByte(content, next.value);
      lines := lines + [line];
      start := next.value + |needle|;
      next := Find(content, needle, start);
    }
    GatherNext(all, lines, content, needle, start);
  }

  lemma NothingGathered(content: Bytes, text: Bytes)
    requires text != []
    ensures Gathered(ScanLines(content, text, 0), [], content, text, 0)
  {
  }

  /** No two of the positions are closer than the text is long. */
  ghost predicate Apart(r: seq<nat>, length: nat) {
    forall a, b | 0 <= a < b < |r| :: r[a] + length <= r[b]
  }

  /** `i` lies in an occurrence that the scan took. */
  ghost predicate Covered(r: seq<nat>, length: nat, i: int) {
    exists k :: 0 <= k < |r| && r[k] <= i < r[k] + length
  }

  /** The scan takes occurrences that do not overlap. */
  lemma {:induction false} ScanIsApart(content: Bytes, text: Bytes, start: nat)
    requires text != [] && start <= |content|
    ensures var r := Scan(content, text, start);
      Apart(r, |text|) && forall k | 0 <= k < |r| :: start <= r[k] && At(content, text, r[k])
    decreases |content| - start
  {
    hide At, Find;
    var first := Find(content, text, start);
    if first.Some? {
      ScanIsApart(content, text, first.value + |text|);
    }
  }

  /** Every occurrence starts inside one that the scan took. */
  lemma {:induction false} ScanCovers(content: Bytes, text: Bytes, start: nat, i: nat)
    requires text != [] && start <= i && At(content, text, i)
    ensures Covered(Scan(content, text, start), |text|, i)
    decreases |content| - start
  {
    FindIsFirst(content, text, start, i);
    hide At, Find;
    var r, next := Scan(content, text, start), Find(content, text, start).value + |text|;
    if i < next {
      assert r[0] <= i < r[0] + |text|;
    } else {
      ScanCovers(content, text, next, i);
      var tail := Scan(content, text, next);
      var k :| 0 <= k < |tail| && tail[k] <= i < tail[k] + |text|;
      assert r[k + 1] == tail[k];
    }
  }

  function ComputeEdit(content: Bytes, text: Bytes, replacement: Bytes): Result<Edit, EditError> {
    if text == [] then Failure(EmptyOld)
    else if text == replacement then Failure(Noop)
    else
      var lines := ScanLines(content, text, 0);
      if lines == [] then Failure(NotFound)
      else if |lines| == 1 then
        var i := Find(content, text, 0).value;
        Success(Edit(content[..i] + replacement + content[i + |text|..], lines[0]))
      else Failure(Ambiguous(lines))
  }

  /** `i` is the leftmost occurrence and every other one overlaps it. */
  ghost predicate Clustered(content: Bytes, text: Bytes, i: int) {
    At(content, text, i) && forall j | At(content, text, j) :: i <= j < i + |text|
  }

  lemma ClusterIsOneStep(content: Bytes, text: Bytes)
    requires text != []
    ensures var at := Scan(content, text, 0);
      && (at == [] <==> forall i :: !At(content, text, i))
      && (|at| == 1 ==> Clustered(content, text, at[0]) && Find(content, text, 0) == Some(at[0]))
      && (forall i | Clustered(content, text, i) :: at == [i])
  {
    var at := Scan(content, text, 0);
    ScanIsApart(content, text, 0);
    forall i | At(content, text, i) ensures at != [] && at[0] <= i && Covered(at, |text|, i) {
      ScanCovers(content, text, 0, i);
      FindIsFirst(content, text, 0, i);
    }
    hide At, Find;
    assert at != [] ==> At(content, text, at[0]) && Find(content, text, 0) == Some(at[0]);
  }

  /** An edit that changes something succeeds exactly when the occurrences form one cluster, and
      fails as not found exactly when there is none. */
  lemma EditSucceedsOnOneCluster(content: Bytes, text: Bytes, replacement: Bytes)
    ensures var r := ComputeEdit(content, text, replacement);
      && (r == Failure(EmptyOld) <==> text == [])
      && (r == Failure(Noop) <==> text != [] && text == replacement)
      && (r.Success? <==> text != [] && text != replacement && exists i :: Clustered(content, text, i))
      && (r == Failure(NotFound) <==> text != [] && text != replacement && forall i :: !At(content, text, i))
  {
    if text != [] && text != replacement {
      ClusterIsOneStep(content, text);
      LinesMatch(content, text, 0);
      hide At, Find, Clustered, Scan, ScanLines;
    }
  }

  /** A successful edit splits the file at the leftmost occurrence, puts the replacement between
      the two parts, and reports the line the occurrence starts on. */
  lemma EditReplacesTheLeftmost(pre: Bytes, text: Bytes, post: Bytes, replacement: Bytes)
    requires text != [] && text != replacement && Clustered(pre + text + post, text, |pre|)
    ensures ComputeEdit(pre + text + post, text, replacement) == Success(Edit(pre + replacement + post, 1 + Newlines(pre)))
  {
    var content := pre + text + post;
    ClusterIsOneStep(content, text);
    LinesMatch(content, text, 0);
    hide At, Find, Clustered, Scan, ScanLines, Newlines;
    assert content[..|pre|] == pre && content[|pre| + |text|..] == post;
  }

  /** An ambiguous edit reports the lines of at least two occurrences that do not overlap. */
  lemma AmbiguityIsReal(content: Bytes, text: Bytes, replacement: Bytes)
    requires var r := ComputeEdit(content, text, replacement);
      r.Failure? && r.error.Ambiguous?
    ensures var lines := ComputeEdit(content, text, replacement).error.lines;
      exists i, j :: (
        && At(content, text, i) && At(content, text, j) && i + |text| <= j
        && lines[..2] == [LineOf(content, i), LineOf(content, j)])
  {
    var at := Scan(content, text, 0);
    ScanIsApart(content, text, 0);
    LinesMatch(content, text, 0);
    hide At, Find, LineOf, Scan, ScanLines;
    assert At(content, text, at[0]) && At(content, text, at[1]);
    assert ScanLines(content, text, 0)[..2] == [LineOf(content, at[0]), LineOf(content, at[1])];
  }

  // ----- when success means a single occurrence -----

  /** Some shift of the text agrees with itself. */
  ghost predicate OverlapsItself(text: Bytes) {
    exists d | 0 < d < |text| :: text[d..] == text[..|text| - d]
  }

  ghost predicate Unique(content: Bytes, text: Bytes) {
    forall i, j | At(content, text, i) && At(content, text, j) :: i == j
  }

  /** The tool asks for a text that appears exactly once, but overlapping occurrences pass as
      one. A successful edit is sure to have had a single occurrence exactly when the text does
      not overlap itself. */
  lemma SuccessMeansUnique(text: Bytes, replacement: Bytes)
    requires text != [] && text != replacement
    ensures !OverlapsItself(text) <==> forall content | ComputeEdit(content, text, replacement).Success? :: Unique(content, text)
  {
    if OverlapsItself(text) {
      var d :| 0 < d < |text| && text[d..] == text[..|text| - d];
      Doubled(text, d);
      EditSucceedsOnOneCluster(text + text[|text| - d..], text, replacement);
    } else {
      forall content | ComputeEdit(content, text, replacement).Success? ensures Unique(content, text) {
        EditSucceedsOnOneCluster(content, text, replacement);
        var i :| Clustered(content, text, i);
        hide ComputeEdit;
        forall j | At(content, text, j) ensures j == i {
          if i < j {
            Shifted(content, text, i, j);
          }
        }
      }
    }
  }

  lemma Shifted(content: Bytes, text: Bytes, i: int, j: int)
    requires At(content, text, i) && At(content, text, j) && i < j < i + |text|
    ensures OverlapsItself(text)
  {
    var d := j - i;
    assert content[i..i + |text|][d..] == content[j..i + |text|] == content[j..j + |text|][..|text| - d];
  }

  /** Twice the same text, sharing its overlap: two occurrences, one cluster. */
  lemma Doubled(text: Bytes, d: nat)
    requires 0 < d < |text| && text[d..] == text[..|text| - d]
    ensures var content := text + text[|text| - d..];
      Clustered(content, text, 0) && !Unique(content, text)
  {
    var content := text + text[|text| - d..];
    assert content[..|text|] == text;
    assert content[d..] == text[d..] + text[|text| - d..] == text;
    assert At(content, text, 0) && At(content, text, d);
  }
}
