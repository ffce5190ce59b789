/** Draining a child pipe: keep a bounded tail, spill the whole stream to a file. */
module CappedReader {
  import opened Wrappers

  /** The largest read from the pipe. */
  const READ_SIZE := 8192

  /** The top two bits are 10. */
  predicate Continuation(b: Byte) {
    0x80 <= b < 0xC0
  }

  /** The first index at or after `i` that does not continue a character, or the end. */
  function Boundary(b: seq<Byte>, i: nat): (r: nat)
    requires i <= |b|
    ensures i <= r <= |b|
    decreases |b| - i
  {
    if i < |b| && Continuation(b[i]) then Boundary(b, i + 1) else i
  }

  lemma {:induction false} BoundaryMeans(b: seq<Byte>, i: nat)
    requires i <= |b|
    ensures AllContinue(b, i, Boundary(b, i))
    ensures Boundary(b, i) < |b| ==> !Continuation(b[Boundary(b, i)])
    decreases |b| - i
  {
    if i < |b| && Continuation(b[i]) {
      BoundaryMeans(b, i + 1);
    }
  }

  ghost predicate AllContinue(b: seq<Byte>, i: int, k: int)
    requires 0 <= i && k <= |b|
  {
    forall j | i <= j < k :: Continuation(b[j])
  }

  /** The tail of at most `cap` bytes, cut on a character boundary. */
  function Tail(b: seq<Byte>, cap: nat): (r: seq<Byte>)
    ensures |r| <= cap
  {
    if |b| <= cap then b else b[Boundary(b, |b| - cap)..]
  }

  /** The longest part of the last `cap` bytes that does not begin inside a character. */
  lemma TailMeans(b: seq<Byte>, cap: nat) returns (cut: nat)
    ensures cut <= |b| && Tail(b, cap) == b[cut..]
    ensures |b| <= cap ==> cut == 0
    ensures |b| > cap ==>
      cut >= |b| - cap && AllContinue(b, |b| - cap, cut) && (cut < |b| ==> !Continuation(b[cut]))
  {
    cut := 0;
    if |b| > cap {
      BoundaryMeans(b, |b| - cap);
      cut := Boundary(b, |b| - cap);
    }
  }

  /** Drops the front of a buffer in place; tells whether anything was dropped. */
  method TrimFrontToCap(buf: seq<Byte>, cap: nat) returns (kept: seq<Byte>, dropped: bool)
    ensures kept == Tail(buf, cap)
    ensures dropped <==> |buf| > cap
  {
    if |buf| <= cap {
      return buf, false;
    }
    var cut := |buf| - cap;
    while cut < |buf| && Continuation(buf[cut])
      invariant |buf| - cap <= cut <= |buf|
      invariant Boundary(buf, |buf| - cap) == Boundary(buf, cut)
    {
      cut := cut + 1;
    }
    return buf[cut..], true;
  }

  function Flatten(chunks: seq<seq<Byte>>): seq<Byte> {
    if chunks == [] then [] else Flatten(chunks[..|chunks| - 1]) + chunks[|chunks| - 1]
  }

  /** The buffer after one more chunk: it is trimmed only once it is twice too long. */
  function Absorb(buf: seq<Byte>, chunk: seq<Byte>, cap: nat): seq<Byte> {
    if |buf + chunk| > 2 * cap then Tail(buf + chunk, cap) else buf + chunk
  }

  function Held(chunks: seq<seq<Byte>>, cap: nat): seq<Byte> {
    if chunks == [] then [] else Absorb(Held(chunks[..|chunks| - 1], cap), chunks[|chunks| - 1], cap)
  }

  /** What the reader returns: the lazily trimmed buffer, trimmed once more. */
  function Kept(chunks: seq<seq<Byte>>, cap: nat): seq<Byte> {
    Tail(Held(chunks, cap), cap)
  }

  // ----- when lazy trimming is the same as trimming once -----

  /** A trim after `m` bytes would have nothing left, the next byte still continues a
      character, and the rest is too short to be trimmed again. */
  ghost predicate Harmful(all: seq<Byte>, cap: nat, m: nat) {
    && 2 * cap < m < |all| <= m + cap
    && forall j | m - cap <= j <= m :: Continuation(all[j])
  }

  /** Where the buffer starts after a trim when `k` bytes had been read. */
  function Cut(all: seq<Byte>, cap: nat, k: nat): (r: nat)
    requires cap <= k <= |all|
    ensures k - cap <= r <= k
  {
    Boundary(all[..k], k - cap)
  }

  /** A buffer that starts at `start` can be trimmed when `m` bytes have been read. */
  predicate NextTrim(cap: nat, start: nat, m: nat) {
    start + 2 * cap < m <= start + 2 * cap + READ_SIZE
  }

  /** Some reads of admissible size make the reader trim when `m` bytes have been read. */
  ghost predicate Reach(all: seq<Byte>, cap: nat, m: nat) {
    && m <= |all|
    && (NextTrim(cap, 0, m) || exists k: nat :: cap <= k < m && Reach(all, cap, k) && NextTrim(cap, Cut(all, cap, k), m))
  }

  ghost predicate Admissible(chunks: seq<seq<Byte>>) {
    forall c | c in chunks :: 0 < |c| <= READ_SIZE
  }

  /** The buffer's start is where a reachable trim has put it. */
  ghost predicate Reached(all: seq<Byte>, cap: nat, start: nat, m: nat) {
    start == 0 || (cap <= m && Reach(all, cap, m) && start == Cut(all, cap, m))
  }

  /** Later bytes do not change which trims were reachable. */
  lemma {:induction false} ReachExtends(before: seq<Byte>, chunk: seq<Byte>, cap: nat, m: nat)
    requires Reach(before, cap, m)
    ensures Reach(before + chunk, cap, m)
    ensures cap <= m ==> Cut(before + chunk, cap, m) == Cut(before, cap, m)
    decreases m
  {
    assert (before + chunk)[..m] == before[..m];
    if !NextTrim(cap, 0, m) {
      var k: nat :| cap <= k < m && Reach(before, cap, k) && NextTrim(cap, Cut(before, cap, k), m);
      ReachExtends(before, chunk, cap, k);
    }
  }

  lemma {:induction false} BoundaryUnique(b: seq<Byte>, i: nat, r: nat)
    requires i <= r <= |b|
    requires forall j | i <= j < r :: Continuation(b[j])
    requires r < |b| ==> !Continuation(b[r])
    ensures Boundary(b, i) == r
    decreases r - i
  {
    if i < r {
      BoundaryUnique(b, i + 1, r);
    }
  }

  lemma {:induction false} BoundaryShifts(b: seq<Byte>, p: nat, i: nat)
    requires p <= |b| && i <= |b| - p
    ensures p + Boundary(b[p..], i) == Boundary(b, p + i)
    decreases |b| - i
  {
    if p + i < |b| && Continuation(b[p + i]) {
      BoundaryShifts(b, p, i + 1);
    }
  }

  /** The buffer starts at `start` after a trim that happened when `m` bytes had been read. */
  ghost predicate TrimmedTo(all: seq<Byte>, cap: nat, start: nat, m: nat) {
    && start <= m <= |all|
    && (start > 0 ==> 2 * cap < m && m - cap <= start && AllContinue(all, m - cap, start))
    && (0 < start < m ==> !Continuation(all[start]))
  }

  lemma TrimmedToExtends(before: seq<Byte>, chunk: seq<Byte>, cap: nat, start: nat, m: nat)
    requires TrimmedTo(before, cap, start, m)
    ensures TrimmedTo(before + chunk, cap, start, m)
  {
  }

  /** Trimming a suffix of the stream is trimming the stream, if the suffix is long enough. */
  lemma TailOfSuffix(all: seq<Byte>, cap: nat, start: nat)
    requires start <= |all| && |all| - start > cap
    ensures Tail(all[start..], cap) == all[Boundary(all, |all| - cap)..] == Tail(all, cap)
  {
    hide Boundary, Continuation;
    var cut := Boundary(all[start..], |all| - start - cap);
    BoundaryShifts(all, start, |all| - start - cap);
    SliceTwice(all, start, cut);
  }

  lemma SliceTwice(b: seq<Byte>, i: nat, j: nat)
    requires i + j <= |b|
    ensures b[i..][j..] == b[i + j..]
  {
  }

  lemma {:induction false} HeldIsSuffix(chunks: seq<seq<Byte>>, cap: nat) returns (start: nat, m: nat)
    ensures TrimmedTo(Flatten(chunks), cap, start, m)
    ensures Held(chunks, cap) == Flatten(chunks)[start..]
    ensures |Held(chunks, cap)| <= 2 * cap
    ensures Admissible(chunks) ==> Reached(Flatten(chunks), cap, start, m)
  {
    hide Continuation, Boundary, TrimmedTo, Reached;
    start, m := 0, 0;
    if chunks == [] {
      NothingTrimmed(cap);
    } else {
      var init, chunk := chunks[..|chunks| - 1], chunks[|chunks| - 1];
      start, m := HeldIsSuffix(init, cap);
      assert chunk in chunks && forall c | c in init :: c in chunks;
      start, m := AbsorbIsSuffix(Flatten(init), chunk, cap, start, m);
    }
  }

  lemma NothingTrimmed(cap: nat)
    ensures TrimmedTo([], cap, 0, 0) && Reached([], cap, 0, 0)
  {
  }

  lemma AbsorbIsSuffix(before: seq<Byte>, chunk: seq<Byte>, cap: nat, start: nat, m: nat) returns (start': nat, m': nat)
    requires TrimmedTo(before, cap, start, m) && |before| - start <= 2 * cap
    ensures TrimmedTo(before + chunk, cap, start', m')
    ensures Reached(before, cap, start, m) && |chunk| <= READ_SIZE ==> Reached(before + chunk, cap, start', m')
    ensures Absorb(before[start..], chunk, cap) == (before + chunk)[start'..]
    ensures |Absorb(before[start..], chunk, cap)| <= 2 * cap
  {
    hide Reached;
    var all := before + chunk;
    assert before[start..] + chunk == all[start..];
    if |all[start..]| > 2 * cap {
      TailOfSuffix(all, cap, start);
      BoundaryMeans(all, |all| - cap);
      start', m' := Boundary(all, |all| - cap), |all|;
    } else {
      TrimmedToExtends(before, chunk, cap, start, m);
      start', m' := start, m;
    }
    if Reached(before, cap, start, m) && |chunk| <= READ_SIZE {
      AbsorbIsReached(before, chunk, cap, start, m);
    }
  }

  lemma AbsorbIsReached(before: seq<Byte>, chunk: seq<Byte>, cap: nat, start: nat, m: nat)
    requires Reached(before, cap, start, m) && |chunk| <= READ_SIZE
    requires start <= m <= |before| <= start + 2 * cap
    ensures Reached(before + chunk, cap, start, m)
    ensures var all := before + chunk;
      |all| > start + 2 * cap ==> Reached(all, cap, Boundary(all, |all| - cap), |all|)
  {
    hide Boundary;
    var all := before + chunk;
    assert all[..|all|] == all;
    if start > 0 {
      ReachExtends(before, chunk, cap, m);
    }
    assert |all| > start + 2 * cap ==> NextTrim(cap, start, |all|);
  }

  /** Chunking independence: unless the stream has a harmful point, every chunking keeps
      exactly the bytes that trimming the whole stream once would keep. */
  lemma ChunkingIrrelevant(chunks: seq<seq<Byte>>, cap: nat)
    requires forall m: nat :: !Harmful(Flatten(chunks), cap, m)
    ensures Kept(chunks, cap) == Tail(Flatten(chunks), cap)
  {
    hide Flatten, Held;
    var start, m := HeldIsSuffix(chunks, cap);
    SuffixKept(Flatten(chunks), cap, start, m);
  }

  lemma SuffixKept(all: seq<Byte>, cap: nat, start: nat, m: nat)
    requires TrimmedTo(all, cap, start, m) && (start > 0 ==> !Harmful(all, cap, m))
    ensures Tail(all[start..], cap) == Tail(all, cap)
  {
    hide Continuation;
    if |all| - start > cap {
      TailOfSuffix(all, cap, start);
    } else if start > 0 {
      BoundaryUnique(all, |all| - cap, start);
    }
  }

  ghost predicate FourInARow(b: seq<Byte>, i: int) {
    0 <= i <= |b| - 4 && AllContinue(b, i, i + 4)
  }

  /** A harmful point takes four continuation bytes in a row, which no UTF-8 text has, as long
      as the cap is at least three. */
  lemma HarmfulIsNotText(all: seq<Byte>, cap: nat, m: nat)
    requires cap >= 3
    ensures Harmful(all, cap, m) ==> FourInARow(all, m - 3)
  {
  }

  // ----- text -----

  /** The bytes of one character, as section 3 of RFC 3629 lays them out. */
  function Encoded(c: nat): seq<Byte>
    requires c < 0x110000
  {
    if c < 0x80 then [c as Byte]
    else if c < 0x800 then [(0xC0 + c / 64) as Byte, Low(c)]
    else if c < 0x10000 then [(0xE0 + c / 4096) as Byte, Low(c / 64), Low(c)]
    else [(0xF0 + c / 262144) as Byte, Low(c / 4096), Low(c / 64), Low(c)]
  }

  /** Six bits of a character in a byte of their own. */
  function Low(c: nat): Byte {
    (0x80 + c % 64) as Byte
  }

  type Character = c: nat | c < 0x110000

  function Utf8(text: seq<Character>): seq<Byte> {
    if text == [] then [] else Encoded(text[0]) + Utf8(text[1..])
  }

  /** The bytes that continue a character are exactly those after its first. */
  lemma OnlyLaterBytesContinue(c: nat)
    requires c < 0x110000
    ensures var e := Encoded(c); 1 <= |e| <= 4 && forall j | 0 <= j < |e| :: Continuation(e[j]) <==> j > 0
  {
  }

  lemma FourShifts(before: seq<Byte>, b: seq<Byte>, i: nat)
    requires i >= |before|
    ensures FourInARow(before + b, i) ==> FourInARow(b, i - |before|)
  {
    hide Continuation;
    if FourInARow(before + b, i) {
      assert forall j | i - |before| <= j < i - |before| + 4 :: b[j] == (before + b)[j + |before|];
    }
  }

  lemma FourReachOver(before: seq<Byte>, b: seq<Byte>, i: nat)
    requires i < |before| <= 4
    ensures FourInARow(before + b, i) ==> Continuation(before[i]) && (i > 0 ==> b != [] && Continuation(b[0]))
  {
    hide Continuation;
    if FourInARow(before + b, i) {
      assert (before + b)[i] == before[i];
      assert i > 0 ==> (before + b)[|before|] == b[0];
    }
  }

  lemma {:induction false} TextNeverHasFour(text: seq<Character>, i: nat)
    ensures !FourInARow(Utf8(text), i)
    ensures Utf8(text) != [] ==> !Continuation(Utf8(text)[0])
  {
    hide Encoded, Continuation;
    if text != [] {
      var e, rest := Encoded(text[0]), Utf8(text[1..]);
      OnlyLaterBytesContinue(text[0]);
      if i >= |e| {
        TextNeverHasFour(text[1..], i - |e|);
        FourShifts(e, rest, i);
      } else {
        TextNeverHasFour(text[1..], 0);
        FourReachOver(e, rest, i);
      }
    }
  }

  /** However the bytes of a text are cut into reads, the reader keeps what trimming the whole text
      once would keep, as long as the cap is at least three. */
  lemma TextIsChunkedFreely(text: seq<Character>, chunks: seq<seq<Byte>>, cap: nat)
    requires cap >= 3 && Flatten(chunks) == Utf8(text)
    ensures Kept(chunks, cap) == Tail(Utf8(text), cap)
  {
    forall m: nat ensures !Harmful(Utf8(text), cap, m) {
      HarmfulIsNotText(Utf8(text), cap, m);
      if m >= 3 {
        TextNeverHasFour(text, m - 3);
      }
    }
    ChunkingIrrelevant(chunks, cap);
  }

  // ----- streams that are not text -----

  function Singles(b: seq<Byte>): seq<seq<Byte>> {
    if b == [] then [] else Singles(b[..|b| - 1]) + [[b[|b| - 1]]]
  }

  /** Reads too short to cause a trim are simply appended. */
  lemma {:induction false} SinglesHeld(chunks: seq<seq<Byte>>, b: seq<Byte>, cap: nat)
    requires |Held(chunks, cap)| + |b| <= 2 * cap
    ensures Flatten(chunks + Singles(b)) == Flatten(chunks) + b
    ensures Held(chunks + Singles(b), cap) == Held(chunks, cap) + b
    ensures forall c | c in Singles(b) :: |c| == 1
    ensures Admissible(chunks) ==> Admissible(chunks + Singles(b))
  {
    hide Flatten, Held, Tail;
    if b == [] {
      assert chunks + Singles(b) == chunks;
      assert Flatten(chunks) + b == Flatten(chunks) && Held(chunks, cap) + b == Held(chunks, cap);
    } else {
      var init, last := b[..|b| - 1], [b[|b| - 1]];
      SinglesHeld(chunks, init, cap);
      assert chunks + Singles(b) == (chunks + Singles(init)) + [last];
      OneMoreChunk(chunks + Singles(init), last, cap);
      assert init + last == b;
      assert Flatten(chunks) + init + last == Flatten(chunks) + (init + last);
      assert Held(chunks, cap) + init + last == Held(chunks, cap) + (init + last);
    }
  }

  lemma OneMoreChunk(chunks: seq<seq<Byte>>, chunk: seq<Byte>, cap: nat)
    ensures Flatten(chunks + [chunk]) == Flatten(chunks) + chunk
    ensures Held(chunks + [chunk], cap) == Absorb(Held(chunks, cap), chunk, cap)
  {
    assert (chunks + [chunk])[..|chunks|] == chunks;
  }

  /** One read takes a buffer that starts at `start` to its next trim. */
  lemma OneTrim(all: seq<Byte>, cap: nat, start: nat, read: nat, m: nat, chunks: seq<seq<Byte>>) returns (longer: seq<seq<Byte>>)
    requires start <= read <= |all| && read - start <= 2 * cap && m <= |all| && NextTrim(cap, start, m)
    requires Flatten(chunks) == all[..read] && Held(chunks, cap) == all[start..read] && Admissible(chunks)
    ensures Flatten(longer) == all[..m] && Held(longer, cap) == all[Cut(all, cap, m)..m] && Admissible(longer)
  {
    hide Continuation, Boundary, Flatten, Held, Singles;
    var full := start + 2 * cap;
    var fill, read' := all[read..full], all[full..m];
    SinglesHeld(chunks, fill, cap);
    var filled := chunks + Singles(fill);
    assert all[..read] + fill == all[..full] && all[start..read] + fill == all[start..full];
    OneMoreChunk(filled, read', cap);
    longer := filled + [read'];
    assert all[..full] + read' == all[..m] && all[start..full] + read' == all[..m][start..];
    TailOfSuffix(all[..m], cap, start);
    assert all[..m][Cut(all, cap, m)..] == all[Cut(all, cap, m)..m];
  }

  /** Every reachable trim is reached by some admissible reads. */
  lemma {:induction false} ReachedBySomeReads(all: seq<Byte>, cap: nat, m: nat) returns (chunks: seq<seq<Byte>>)
    requires Reach(all, cap, m)
    ensures cap <= m && Flatten(chunks) == all[..m] && Held(chunks, cap) == all[Cut(all, cap, m)..m] && Admissible(chunks)
    decreases m
  {
    hide Boundary, Flatten, Held;
    if NextTrim(cap, 0, m) {
      NothingHeld(cap);
      chunks := OneTrim(all, cap, 0, 0, m, []);
    } else {
      var k: nat :| cap <= k < m && Reach(all, cap, k) && NextTrim(cap, Cut(all, cap, k), m);
      var earlier := ReachedBySomeReads(all, cap, k);
      chunks := OneTrim(all, cap, Cut(all, cap, k), k, m, earlier);
    }
  }

  /** A reachable harmful point makes some admissible reads keep bytes that trimming once drops. */
  lemma HarmfulChunking(all: seq<Byte>, cap: nat, m: nat) returns (chunks: seq<seq<Byte>>)
    requires Reach(all, cap, m) && Harmful(all, cap, m)
    ensures Flatten(chunks) == all && Admissible(chunks)
    ensures Kept(chunks, cap) != Tail(all, cap)
  {
    hide Continuation, Boundary, Flatten, Held, Singles;
    var upTo := ReachedBySomeReads(all, cap, m);
    var rest := all[m..];
    BoundaryUnique(all[..m], m - cap, m);
    assert Held(upTo, cap) == [];
    SinglesHeld(upTo, rest, cap);
    chunks := upTo + Singles(rest);
    assert all[..m] + rest == all;
    assert Kept(chunks, cap) == [] + rest == rest;
    HarmfulTail(all, cap, m);
  }

  /** Chunking independence, exactly: every admissible sequence of reads of a stream keeps what
      trimming it once keeps, if and only if no reachable trim is at a harmful point. */
  lemma ChunkingIrrelevantIff(all: seq<Byte>, cap: nat)
    ensures (forall m | Reach(all, cap, m) :: !Harmful(all, cap, m)) <==>
      forall chunks | Flatten(chunks) == all && Admissible(chunks) :: Kept(chunks, cap) == Tail(all, cap)
  {
    hide Flatten, Held, Tail, Reach, Harmful, Admissible;
    if forall m | Reach(all, cap, m) :: !Harmful(all, cap, m) {
      forall chunks | Flatten(chunks) == all && Admissible(chunks) ensures Kept(chunks, cap) == Tail(all, cap) {
        var start, m := HeldIsSuffix(chunks, cap);
        SuffixKept(all, cap, start, m);
      }
    } else {
      var m :| Reach(all, cap, m) && Harmful(all, cap, m);
      var _ := HarmfulChunking(all, cap, m);
    }
  }

  /** There are such streams, for every positive cap: continuation bytes only, one more than the
      first trim can take. */
  lemma HarmfulStream(cap: nat) returns (all: seq<Byte>, chunks: seq<seq<Byte>>)
    requires cap > 0
    ensures Flatten(chunks) == all && Admissible(chunks) && Kept(chunks, cap) != Tail(all, cap)
  {
    all := seq(2 * cap + 2, i => 0x80);
    var m := 2 * cap + 1;
    assert NextTrim(cap, 0, m) && Reach(all, cap, m);
    assert Harmful(all, cap, m);
    chunks := HarmfulChunking(all, cap, m);
  }

  lemma HarmfulTail(all: seq<Byte>, cap: nat, m: nat)
    requires Harmful(all, cap, m)
    ensures |Tail(all, cap)| < |all| - m
  {
    hide Continuation;
    BoundaryMeans(all, |all| - cap);
  }

  lemma NothingHeld(cap: nat)
    ensures Flatten([]) == [] && Held([], cap) == []
  {
  }

  // ----- the reader -----

  /** What the file system answers: creating the file, each write in turn, the final flush,
      removing a partial file; a failing write may still leave part of its data behind. */
  datatype Io = Io(createOk: bool, writeOk: nat -> bool, partial: nat, flushOk: bool, removeOk: bool) {
    ghost predicate Works() {
      createOk && flushOk && forall n :: writeOk(n)
    }
  }

  class SpillDir {
    var files: map<string, seq<Byte>>

    method Create(path: string, ok: bool)
      requires path !in files
      modifies this
      ensures files == if ok then old(files)[path := []] else old(files)
    {
      if ok {
        files := files[path := []];
      }
    }

    method WriteAll(path: string, data: seq<Byte>, ok: bool, partial: nat)
      requires path in files
      modifies this
      ensures ok ==> files == old(files)[path := old(files)[path] + data]
      ensures files.Keys == old(files.Keys) && files - {path} == old(files) - {path}
    {
      if ok {
        files := files[path := files[path] + data];
      } else if partial < |data| {
        files := files[path := files[path] + data[..partial]];
      }
    }

    method Remove(path: string, ok: bool)
      modifies this
      ensures files == if ok then old(files) - {path} else old(files)
    {
      if ok {
        files := files - {path};
      }
    }
  }

  datatype CappedStream = CappedStream(bytes: seq<Byte>, truncated: bool, spill: Option<string>)

  /** How spilling stands. */
  datatype Spill = Untried | Open(written: nat) | GaveUp

  ghost predicate SpillOk(before: map<string, seq<Byte>>, now: map<string, seq<Byte>>, path: string, io: Io,
                          spill: Spill, sofar: seq<Byte>)
  {
    && now - {path} == before
    && (spill.Open? ==> path in now && now[path] == sofar)
    && (spill.Untried? ==> now == before)
    && (spill.GaveUp? && io.removeOk ==> now == before)
    && (spill.GaveUp? ==> !io.Works())
  }

  /** Opens the spill file and writes everything read so far, or gives up. */
  method StartSpill(dir: SpillDir, path: string, io: Io, sofar: seq<Byte>) returns (spill: Spill)
    requires path !in dir.files
    modifies dir
    ensures !spill.Untried? && SpillOk(old(dir.files), dir.files, path, io, spill, sofar)
  {
    dir.Create(path, io.createOk);
    if !io.createOk {
      return GaveUp;
    }
    dir.WriteAll(path, sofar, io.writeOk(0), io.partial);
    if !io.writeOk(0) {
      dir.Remove(path, io.removeOk);
      return GaveUp;
    }
    return Open(1);
  }

  /** Appends one chunk to an open spill file, or discards it and gives up. */
  method ContinueSpill(dir: SpillDir, path: string, io: Io, spill: Spill, sofar: seq<Byte>, data: seq<Byte>,
                       ghost before: map<string, seq<Byte>>)
    returns (after: Spill)
    requires path !in before && SpillOk(before, dir.files, path, io, spill, sofar)
    modifies dir
    ensures SpillOk(before, dir.files, path, io, after, sofar + data)
    ensures after.Untried? <==> spill.Untried?
  {
    after := spill;
    if spill.Open? {
      dir.WriteAll(path, data, io.writeOk(spill.written), io.partial);
      if io.writeOk(spill.written) {
        after := Open(spill.written + 1);
      } else {
        dir.Remove(path, io.removeOk);
        after := GaveUp;
      }
    }
  }

  /** Reads a pipe to its end. A read error counts as the end, and a missing pipe as an empty
      one, so the chunks are all the input there is. */
  method ReadCapped(chunks: seq<seq<Byte>>, cap: nat, dir: SpillDir, path: string, io: Io)
    returns (stream: CappedStream, ghost moved: nat, ghost peak: nat)
    requires Admissible(chunks)
    requires path !in dir.files
    modifies dir
    ensures stream.bytes == Kept(chunks, cap)
    ensures stream.truncated <==> |Flatten(chunks)| > cap
    ensures stream.spill.Some? ==>
      stream.spill.value == path && path in dir.files && dir.files[path] == Flatten(chunks)
    ensures stream.spill.Some? ==> |Flatten(chunks)| > cap
    ensures io.Works() && |Flatten(chunks)| > cap ==> stream.spill.Some?
    ensures stream.spill.None? && io.removeOk ==> dir.files == old(dir.files)
    ensures dir.files - {path} == old(dir.files)
    ensures moved <= |Flatten(chunks)| + cap
    ensures peak <= 2 * cap + READ_SIZE
  {
    var buf: seq<Byte>, truncated, spill := [], false, Untried;
    moved, peak := 0, 0;
    for i := 0 to |chunks|
      invariant buf == Held(chunks[..i], cap)
      invariant moved + |buf| <= |Flatten(chunks[..i])| && |buf| <= 2 * cap
      invariant peak <= 2 * cap + READ_SIZE
      invariant SpillOk(old(dir.files), dir.files, path, io, spill, Flatten(chunks[..i]))
      invariant spill.Untried? ==> !truncated && buf == Flatten(chunks[..i])
      invariant truncated ==> |Flatten(chunks[..i])| > cap
      invariant !spill.Untried? ==> truncated
    {
      var data := chunks[i];
      assert chunks[..i + 1][..i] == chunks[..i];
      assert data in chunks;
      spill := ContinueSpill(dir, path, io, spill, Flatten(chunks[..i]), data, old(dir.files));
      buf := buf + data;
      peak := if |buf| > peak then |buf| else peak;
      if |buf| > cap * 2 {
        if spill.Untried? {
          spill := StartSpill(dir, path, io, buf);
        }
        var dropped;
        buf, dropped := TrimFrontToCap(buf, cap);
        moved := moved + |buf|;
        truncated := truncated || dropped;
      }
    }
    assert chunks[..|chunks|] == chunks;
    if |buf| > cap && spill.Untried? {
      spill := StartSpill(dir, path, io, buf);
    }
    var dropped;
    buf, dropped := TrimFrontToCap(buf, cap);
    moved := moved + |buf|;
    truncated := truncated || dropped;
    var reported: Option<string> := None;
    if spill.Open? {
      if io.flushOk {
        reported := Some(path);
      } else {
        dir.Remove(path, io.removeOk);
      }
    }
    return CappedStream(buf, truncated, reported), moved, peak;
  }
}
