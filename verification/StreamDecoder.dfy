/** Decoding the server-sent events of a streaming model reply. */
module StreamDecoder {
  import opened Wrappers

  const NEWLINE: Byte := 10

  /** The events the decoder tells apart; a delta without its field counts as `Other`. */
  datatype Frame =
    | ToolStart(id: string, name: string)
    | TextDelta(text: string)
    | JsonDelta(partial: string)
    | BlockStop
    | StopReason(reason: string)
    | MessageStop
    | StreamError(message: string)
    | Other

  /** Lossy UTF-8 decoding, the blank characters, the event parser and the argument parser. */
  datatype Parsers = Parsers(
    text: seq<Byte> -> string,
    blank: char -> bool,
    event: string -> Option<Frame>,
    arguments: string -> Option<string>)

  datatype Item =
    | Text(content: string)
    | Call(id: string, name: string, arguments: string)
    | Finish(reason: string)
    | Error(message: string)

  datatype Block = Block(id: string, name: string, json: string)

  /** The decoder between two lines: the open tool block, what was sent, whether it returned. */
  datatype Decoder = Decoder(tool: Option<Block>, sent: seq<Item>, stopped: bool)

  const FRESH := Decoder(None, [], false)

  /** What the connection delivers next. */
  datatype Arrival = Data(bytes: seq<Byte>) | Broken(message: string)

  // ----- one line -----

  function TrimFront(s: string, blank: char -> bool): string {
    if s != [] && blank(s[0]) then TrimFront(s[1..], blank) else s
  }

  function TrimBack(s: string, blank: char -> bool): string {
    if s != [] && blank(s[|s| - 1]) then TrimBack(s[..|s| - 1], blank) else s
  }

  function Trim(s: string, blank: char -> bool): string {
    TrimBack(TrimFront(s, blank), blank)
  }

  /** The event a line carries, if it is a data line with one. */
  function FrameOf(line: seq<Byte>, p: Parsers): Frame {
    var text := Trim(p.text(line), p.blank);
    if !("data:" <= text) then Other else
    var data := Trim(text[5..], p.blank);
    if data == "" then Other else
    match p.event(data)
    case None => Other
    case Some(frame) => frame
  }

  /** `r` is `s` without the blanks at both ends. */
  ghost predicate Trimmed(s: string, blank: char -> bool, r: string) {
    && (r != [] ==> !blank(r[0]) && !blank(r[|r| - 1]))
    && exists i: nat :: AllBlankBut(s, blank, i, r)
  }

  ghost predicate AllBlankBut(s: string, blank: char -> bool, i: nat, r: string) {
    && i + |r| <= |s| && s[i..i + |r|] == r
    && forall j | 0 <= j < |s| && !(i <= j < i + |r|) :: blank(s[j])
  }

  lemma {:induction false} TrimFrontDrops(s: string, blank: char -> bool)
    ensures var r := TrimFront(s, blank);
      |r| <= |s| && s[|s| - |r|..] == r && (r != [] ==> !blank(r[0])) && forall j | 0 <= j < |s| - |r| :: blank(s[j])
  {
    if s != [] && blank(s[0]) {
      TrimFrontDrops(s[1..], blank);
      assert forall j | 0 < j < |s| - |TrimFront(s[1..], blank)| :: s[j] == s[1..][j - 1];
    }
  }

  lemma {:induction false} TrimBackDrops(s: string, blank: char -> bool)
    ensures var r := TrimBack(s, blank);
      |r| <= |s| && s[..|r|] == r && (r != [] ==> !blank(r[|r| - 1])) && forall j | |r| <= j < |s| :: blank(s[j])
  {
    if s != [] && blank(s[|s| - 1]) {
      TrimBackDrops(s[..|s| - 1], blank);
    }
  }

  lemma TrimIsTrimmed(s: string, blank: char -> bool)
    ensures Trimmed(s, blank, Trim(s, blank))
  {
    TrimFrontDrops(s, blank);
    var front := TrimFront(s, blank);
    TrimBackDrops(front, blank);
    var r, i := TrimBack(front, blank), |s| - |front|;
    assert forall j | i <= j < |s| :: s[j] == front[j - i];
    assert AllBlankBut(s, blank, i, r);
  }

  lemma TrimmedIsUnique(s: string, blank: char -> bool, a: string, b: string)
    requires Trimmed(s, blank, a) && Trimmed(s, blank, b)
    ensures a == b
  {
    var i: nat :| AllBlankBut(s, blank, i, a);
    var j: nat :| AllBlankBut(s, blank, j, b);
    if a != [] {
      assert s[i] == a[0] && s[i + |a| - 1] == a[|a| - 1];
    }
    if b != [] {
      assert s[j] == b[0] && s[j + |b| - 1] == b[|b| - 1];
    }
  }

  /** A line whose trimmed text starts with `data:` and goes on with more than blanks hands the
      event parser exactly the trimmed rest; any other line, and one that does not parse, is
      ignored. */
  lemma FrameIsThePayload(line: seq<Byte>, p: Parsers, text: string, payload: string)
    requires Trimmed(p.text(line), p.blank, text)
    requires "data:" <= text ==> Trimmed(text[5..], p.blank, payload)
    ensures FrameOf(line, p) ==
      if "data:" <= text && payload != "" && p.event(payload).Some? then p.event(payload).value else Other
  {
    TrimIsTrimmed(p.text(line), p.blank);
    TrimmedIsUnique(p.text(line), p.blank, text, Trim(p.text(line), p.blank));
    if "data:" <= text {
      TrimIsTrimmed(text[5..], p.blank);
      TrimmedIsUnique(text[5..], p.blank, payload, Trim(text[5..], p.blank));
    }
  }

  /** Sends one item; a receiver that has hung up after `accepts` items ends the decoder. */
  function Send(d: Decoder, item: Item, accepts: nat): Decoder {
    if |d.sent| < accepts then d.(sent := d.sent + [item]) else d.(stopped := true)
  }

  function Arguments(json: string, p: Parsers): string {
    match p.arguments(json)
    case Some(arguments) => arguments
    case None => "{}"
  }

  function Step(d: Decoder, frame: Frame, p: Parsers, accepts: nat): Decoder {
    if d.stopped then d else
    match frame
    case ToolStart(id, name) => d.(tool := Some(Block(id, name, "")))
    case TextDelta(text) => Send(d, Text(text), accepts)
    case JsonDelta(partial) =>
      if d.tool.None? then d else d.(tool := Some(d.tool.value.(json := d.tool.value.json + partial)))
    case BlockStop =>
      if d.tool.None? then d else
      Send(d.(tool := None), Call(d.tool.value.id, d.tool.value.name, Arguments(d.tool.value.json, p)), accepts)
    case StopReason(reason) => Send(d, Finish(reason), accepts)
    case MessageStop => d.(stopped := true)
    case StreamError(message) => Send(d, Error(message), accepts).(stopped := true)
    case Other => d
  }

  function Fold(d: Decoder, frames: seq<Frame>, p: Parsers, accepts: nat): Decoder
    decreases |frames|
  {
    if frames == [] then d else Fold(Step(d, frames[0], p, accepts), frames[1..], p, accepts)
  }

  // ----- lines -----

  /** The position of the first newline from `i` on, or the length. */
  function NewlineFrom(b: seq<Byte>, i: nat): (n: nat)
    requires i <= |b|
    ensures i <= n <= |b| && (n < |b| ==> b[n] == NEWLINE)
    ensures forall j | i <= j < n :: b[j] != NEWLINE
    decreases |b| - i
  {
    if i == |b| || b[i] == NEWLINE then i else NewlineFrom(b, i + 1)
  }

  function FirstNewline(b: seq<Byte>): (n: nat)
    ensures n <= |b| && (n < |b| ==> b[n] == NEWLINE)
    ensures forall j | 0 <= j < n :: b[j] != NEWLINE
  {
    NewlineFrom(b, 0)
  }

  /** The newline-terminated lines of a byte string, newlines included. */
  function Lines(b: seq<Byte>): seq<seq<Byte>> {
    var n := FirstNewline(b);
    if n == |b| then [] else [b[..n + 1]] + Lines(b[n + 1..])
  }

  /** The bytes after the last newline, which are never decoded. */
  function Unread(b: seq<Byte>): seq<Byte> {
    var n := FirstNewline(b);
    if n == |b| then b else Unread(b[n + 1..])
  }

  function FramesOf(lines: seq<seq<Byte>>, p: Parsers): (frames: seq<Frame>)
    ensures |frames| == |lines| && forall i | 0 <= i < |lines| :: frames[i] == FrameOf(lines[i], p)
  {
    if lines == [] then [] else [FrameOf(lines[0], p)] + FramesOf(lines[1..], p)
  }

  function Frames(b: seq<Byte>, p: Parsers): seq<Frame> {
    FramesOf(Lines(b), p)
  }

  function Flat(lines: seq<seq<Byte>>): seq<Byte> {
    if lines == [] then [] else lines[0] + Flat(lines[1..])
  }

  ghost predicate Line(l: seq<Byte>) {
    l != [] && FirstNewline(l) == |l| - 1
  }

  ghost predicate Unfinished(b: seq<Byte>) {
    FirstNewline(b) == |b|
  }

  lemma FirstLineIsALine(b: seq<Byte>)
    requires FirstNewline(b) < |b|
    ensures Line(b[..FirstNewline(b) + 1])
  {
    hide FirstNewline;
    var n := FirstNewline(b);
    assert b[..n + 1][n] == NEWLINE;
  }

  lemma LinesCases(b: seq<Byte>)
    ensures var n := FirstNewline(b);
      Lines(b) == if n == |b| then [] else [b[..n + 1]] + Lines(b[n + 1..])
  {
  }

  lemma UnreadCases(b: seq<Byte>)
    ensures var n := FirstNewline(b);
      Unread(b) == if n == |b| then b else Unread(b[n + 1..])
  {
  }

  /** Lines are the only split of the bytes into newline-terminated pieces and an unfinished
      rest: they are one, and (`LinesUnique`) there is no other. */
  lemma {:induction false} LinesPartition(b: seq<Byte>)
    ensures forall l | l in Lines(b) :: Line(l)
    ensures b == Flat(Lines(b)) + Unread(b) && Unfinished(Unread(b))
  {
    hide FirstNewline, Lines, Unread, Flat, Line;
    LinesCases(b);
    UnreadCases(b);
    var n := FirstNewline(b);
    if n == |b| {
      FlatUnfolds(b, []);
      assert b == [] + b;
    } else {
      var first, rest := b[..n + 1], b[n + 1..];
      LinesPartition(rest);
      FirstLineIsALine(b);
      FlatUnfolds(first, Lines(rest));
      assert b == first + rest;
    }
  }

  lemma FlatUnfolds(first: seq<Byte>, rest: seq<seq<Byte>>)
    ensures Flat([first] + rest) == first + Flat(rest) && Flat([]) == []
  {
    assert ([first] + rest)[1..] == rest;
  }

  lemma {:induction false} LinesUnique(lines: seq<seq<Byte>>, rest: seq<Byte>)
    requires forall l | l in lines :: Line(l)
    requires Unfinished(rest)
    ensures Lines(Flat(lines) + rest) == lines
  {
    var b := Flat(lines) + rest;
    if lines == [] {
      assert b == rest;
    } else {
      var l := lines[0];
      assert l in lines;
      var later := Flat(lines[1..]) + rest;
      assert b == l + later;
      FirstNewlineStays(l, later);
      assert b[|l|..] == later && b[..|l|] == l;
      LinesUnique(lines[1..], rest);
    }
  }

  /** Bytes that arrive later do not move the first newline. */
  lemma FirstNewlineStays(a: seq<Byte>, b: seq<Byte>)
    requires FirstNewline(a) < |a|
    ensures FirstNewline(a + b) == FirstNewline(a)
  {
    hide FirstNewline;
    assert (a + b)[FirstNewline(a)] == NEWLINE;
  }

  lemma LinesUnfolds(buffer: seq<Byte>, later: seq<Byte>)
    requires FirstNewline(buffer) < |buffer|
    ensures var n := FirstNewline(buffer);
      Lines(buffer + later) == [buffer[..n + 1]] + Lines(buffer[n + 1..] + later)
  {
    var n, all := FirstNewline(buffer), buffer + later;
    FirstNewlineStays(buffer, later);
    hide FirstNewline;
    assert all[..n + 1] == buffer[..n + 1];
    assert all[n + 1..] == buffer[n + 1..] + later;
  }

  lemma FramesUnfolds(buffer: seq<Byte>, later: seq<Byte>, p: Parsers)
    requires FirstNewline(buffer) < |buffer|
    ensures var n := FirstNewline(buffer);
      Frames(buffer + later, p) == [FrameOf(buffer[..n + 1], p)] + Frames(buffer[n + 1..] + later, p)
  {
    hide FirstNewline, Lines, FrameOf;
    LinesUnfolds(buffer, later);
    var n := FirstNewline(buffer);
    var first, rest := [buffer[..n + 1]], Lines(buffer[n + 1..] + later);
    assert (first + rest)[1..] == rest;
  }

  lemma {:induction false} StoppedStays(d: Decoder, frames: seq<Frame>, p: Parsers, accepts: nat)
    requires d.stopped
    ensures Fold(d, frames, p, accepts) == d
  {
    if frames != [] {
      StoppedStays(d, frames[1..], p, accepts);
    }
  }

  /** A stop or an error ends the stream: later lines send nothing, and an error is itself the
      last item as long as the receiver accepts one. */
  lemma {:induction false} NothingAfterTheEnd(d: Decoder, before: seq<Frame>, last: Frame, after: seq<Frame>, p: Parsers, accepts: nat)
    requires last.MessageStop? || last.StreamError?
    ensures var end := Fold(d, before, p, accepts);
      Fold(d, before + [last] + after, p, accepts).sent
      == if last.StreamError? && !end.stopped && |end.sent| < accepts then end.sent + [Error(last.message)] else end.sent
    decreases |before|
  {
    hide FrameOf, Arguments;
    var all := before + [last] + after;
    if before == [] {
      assert all[0] == last && all[1..] == after;
      StoppedStays(Step(d, last, p, accepts), after, p, accepts);
    } else {
      assert all[0] == before[0] && all[1..] == before[1..] + [last] + after;
      NothingAfterTheEnd(Step(d, before[0], p, accepts), before[1..], last, after, p, accepts);
    }
  }

  // ----- the whole stream -----

  /** The bytes received before the connection ends or breaks. */
  function Received(arrivals: seq<Arrival>): seq<Byte> {
    if arrivals == [] || arrivals[0].Broken? then [] else arrivals[0].bytes + Received(arrivals[1..])
  }

  /** How the connection ends. */
  function Break(arrivals: seq<Arrival>): Option<string> {
    if arrivals == [] then None
    else if arrivals[0].Broken? then Some(arrivals[0].message)
    else Break(arrivals[1..])
  }

  function Arriving(chunks: seq<seq<Byte>>): seq<Arrival> {
    seq(|chunks|, i requires 0 <= i < |chunks| => Data(chunks[i]))
  }

  /** What is received is all the data up to the first break, if there is one, and whatever would
      arrive after it is not. */
  lemma {:induction false} ReceivedMeans(chunks: seq<seq<Byte>>, message: string, after: seq<Arrival>)
    ensures Received(Arriving(chunks)) == Flat(chunks) && Break(Arriving(chunks)) == None
    ensures Received(Arriving(chunks) + [Broken(message)] + after) == Flat(chunks)
    ensures Break(Arriving(chunks) + [Broken(message)] + after) == Some(message)
  {
    var all := Arriving(chunks) + [Broken(message)] + after;
    if chunks == [] {
      assert all[0] == Broken(message);
    } else {
      ReceivedMeans(chunks[1..], message, after);
      assert Arriving(chunks)[1..] == Arriving(chunks[1..]);
      assert all[0] == Data(chunks[0]) && all[1..] == Arriving(chunks[1..]) + [Broken(message)] + after;
    }
  }

  /** What the receiver gets: the fold of the handler over the complete lines, then the
      transport error unless the decoder had already returned. */
  function Decoded(d: Decoder, bytes: seq<Byte>, broken: Option<string>, p: Parsers, accepts: nat): seq<Item> {
    var end := Fold(d, Frames(bytes, p), p, accepts);
    if broken.None? || end.stopped then end.sent else Send(end, Error(broken.value), accepts).sent
  }

  // ----- what a stream says -----

  predicate Ends(f: Frame) {
    f.MessageStop? || f.StreamError?
  }

  /** How many frames come before the first one that ends the stream. */
  function Lasting(frames: seq<Frame>): (n: nat)
    ensures n <= |frames| && (n < |frames| ==> Ends(frames[n])) && forall i | 0 <= i < n :: !Ends(frames[i])
  {
    if frames == [] || Ends(frames[0]) then 0 else 1 + Lasting(frames[1..])
  }

  /** The tool block that is open before the `n`th frame: the last one to start, unless a stop came
      after it. */
  function OpenBefore(frames: seq<Frame>, n: nat): (start: Option<nat>)
    requires n <= |frames|
    ensures start.Some? ==>
      && start.value < n && frames[start.value].ToolStart?
      && forall i | start.value < i < n :: !frames[i].ToolStart? && !frames[i].BlockStop?
    ensures start.None? ==>
      forall j | 0 <= j < n && frames[j].ToolStart? :: exists i :: j < i < n && frames[i].BlockStop?
  {
    if n == 0 || frames[n - 1].BlockStop? then None
    else if frames[n - 1].ToolStart? then Some(n - 1)
    else OpenBefore(frames, n - 1)
  }

  /** That block, with all the deltas since its start. */
  function Open(frames: seq<Frame>, n: nat): Option<Block>
    requires n <= |frames|
  {
    match OpenBefore(frames, n)
    case None => None
    case Some(j) => Some(Block(frames[j].id, frames[j].name, Json(frames[j + 1..n])))
  }

  /** What a frame makes the receiver hear: a text delta its text and a stop reason itself, inside
      and outside tool blocks; a block's stop the block's call; a stop without an open block
      nothing. Arguments that do not parse count as an empty object. */
  function Says(tool: Option<Block>, frame: Frame, p: Parsers): seq<Item> {
    match frame
    case TextDelta(text) => [Text(text)]
    case StopReason(reason) => [Finish(reason)]
    case BlockStop =>
      if tool.None? then []
      else
        var parsed := p.arguments(tool.value.json);
        [Call(tool.value.id, tool.value.name, if parsed.Some? then parsed.value else "{}")]
    case StreamError(message) => [Error(message)]
    case _ => []
  }

  function HeardUpTo(frames: seq<Frame>, n: nat, p: Parsers): seq<Item>
    requires n <= |frames|
  {
    if n == 0 then [] else HeardUpTo(frames, n - 1, p) + Says(Open(frames, n - 1), frames[n - 1], p)
  }

  /** Everything a stream says: up to and including the frame that ends it, or to the transport
      error if nothing else ends it. */
  function Saying(frames: seq<Frame>, broken: Option<string>, p: Parsers): seq<Item> {
    var n := Lasting(frames);
    if n < |frames| then HeardUpTo(frames, n + 1, p)
    else HeardUpTo(frames, n, p) + if broken.Some? then [Error(broken.value)] else []
  }

  function Take<T>(s: seq<T>, n: nat): seq<T> {
    if |s| <= n then s else s[..n]
  }

  lemma {:induction false} JsonSnoc(frames: seq<Frame>, f: Frame)
    ensures Json(frames + [f]) == Json(frames) + if f.JsonDelta? then f.partial else ""
  {
    if frames != [] {
      JsonSnoc(frames[1..], f);
      assert (frames + [f])[1..] == frames[1..] + [f];
    }
  }

  lemma {:induction false} FoldSnoc(d: Decoder, frames: seq<Frame>, f: Frame, p: Parsers, accepts: nat)
    ensures Fold(d, frames + [f], p, accepts) == Step(Fold(d, frames, p, accepts), f, p, accepts)
    decreases |frames|
  {
    hide Step;
    if frames == [] {
      assert frames + [f] == [f];
    } else {
      FoldSnoc(Step(d, frames[0], p, accepts), frames[1..], f, p, accepts);
      assert (frames + [f])[1..] == frames[1..] + [f];
    }
  }

  /** The decoder after `n` frames, none of which ends the stream. */
  ghost predicate Follows(d: Decoder, frames: seq<Frame>, n: nat, p: Parsers, accepts: nat)
    requires n <= |frames|
  {
    && d.sent == Take(HeardUpTo(frames, n, p), accepts)
    && (d.stopped <==> |HeardUpTo(frames, n, p)| > accepts)
    && (!d.stopped ==> d.tool == Open(frames, n))
  }

  lemma TakeMore<T>(s: seq<T>, more: seq<T>, n: nat)
    ensures |s| >= n ==> Take(s + more, n) == Take(s, n)
  {
  }

  function OpenAfter(tool: Option<Block>, frame: Frame): Option<Block> {
    match frame
    case ToolStart(id, name) => Some(Block(id, name, ""))
    case JsonDelta(partial) => if tool.None? then tool else Some(tool.value.(json := tool.value.json + partial))
    case BlockStop => None
    case _ => tool
  }

  lemma OpenFollows(frames: seq<Frame>, n: nat)
    requires n < |frames|
    ensures Open(frames, n + 1) == OpenAfter(Open(frames, n), frames[n])
  {
    if OpenBefore(frames, n).Some? {
      var j := OpenBefore(frames, n).value;
      assert frames[j + 1..n + 1] == frames[j + 1..n] + [frames[n]];
      JsonSnoc(frames[j + 1..n], frames[n]);
      assert Json(frames[j + 1..n]) + "" == Json(frames[j + 1..n]);
    }
    assert frames[n + 1..n + 1] == [];
  }

  lemma StepSays(d: Decoder, frame: Frame, p: Parsers, accepts: nat)
    requires !d.stopped && |d.sent| <= accepts
    ensures var d', said := Step(d, frame, p, accepts), Says(d.tool, frame, p);
      && d'.sent == Take(d.sent + said, accepts)
      && (d'.stopped <==> Ends(frame) || |d.sent + said| > accepts)
      && (!d'.stopped ==> d'.tool == OpenAfter(d.tool, frame))
  {
    assert d.sent + [] == d.sent;
  }

  lemma StepFollows(d: Decoder, frames: seq<Frame>, n: nat, p: Parsers, accepts: nat)
    requires n < |frames| && !Ends(frames[n]) && Follows(d, frames, n, p, accepts)
    ensures Follows(Step(d, frames[n], p, accepts), frames, n + 1, p, accepts)
  {
    var heard, more := HeardUpTo(frames, n, p), Says(Open(frames, n), frames[n], p);
    TakeMore(heard, more, accepts);
    OpenFollows(frames, n);
    if !d.stopped {
      StepSays(d, frames[n], p, accepts);
      hide Step, OpenAfter, Says, Open;
    }
  }

  lemma {:induction false} FoldFollows(frames: seq<Frame>, n: nat, p: Parsers, accepts: nat)
    requires n <= Lasting(frames)
    ensures Follows(Fold(FRESH, frames[..n], p, accepts), frames, n, p, accepts)
  {
    hide Follows, Step, Fold, HeardUpTo;
    if n == 0 {
      NothingFollows(frames, p, accepts);
    } else {
      var init := frames[..n - 1];
      FoldFollows(frames, n - 1, p, accepts);
      StepFollows(Fold(FRESH, init, p, accepts), frames, n - 1, p, accepts);
      FoldSnoc(FRESH, init, frames[n - 1], p, accepts);
      assert frames[..n] == init + [frames[n - 1]];
    }
  }

  lemma NothingFollows(frames: seq<Frame>, p: Parsers, accepts: nat)
    ensures Follows(Fold(FRESH, frames[..0], p, accepts), frames, 0, p, accepts)
  {
    assert frames[..0] == [];
  }

  /** The receiver hears what the stream says, as far as it listens. */
  lemma DecodedSays(bytes: seq<Byte>, broken: Option<string>, p: Parsers, accepts: nat)
    ensures Decoded(FRESH, bytes, broken, p, accepts) == Take(Saying(Frames(bytes, p), broken, p), accepts)
  {
    hide Frames, Step, Says, Open;
    var frames := Frames(bytes, p);
    var n := Lasting(frames);
    FoldFollows(frames, n, p, accepts);
    var d := Fold(FRESH, frames[..n], p, accepts);
    if n < |frames| {
      StepEnds(d, frames, n, p, accepts);
      FoldSnoc(FRESH, frames[..n], frames[n], p, accepts);
      assert frames[..n + 1] == frames[..n] + [frames[n]];
      FoldConcat(FRESH, frames[..n + 1], frames[n + 1..], p, accepts);
      assert frames == frames[..n + 1] + frames[n + 1..];
      StoppedStays(Step(d, frames[n], p, accepts), frames[n + 1..], p, accepts);
    } else {
      assert frames[..n] == frames;
      var heard := HeardUpTo(frames, n, p);
      assert heard + [] == heard;
      if broken.Some? {
        TakeMore(heard, [Error(broken.value)], accepts);
      }
    }
  }

  lemma StepEnds(d: Decoder, frames: seq<Frame>, n: nat, p: Parsers, accepts: nat)
    requires n < |frames| && Ends(frames[n]) && Follows(d, frames, n, p, accepts)
    ensures var d' := Step(d, frames[n], p, accepts); d'.stopped && d'.sent == Take(HeardUpTo(frames, n + 1, p), accepts)
  {
    TakeMore(HeardUpTo(frames, n, p), Says(Open(frames, n), frames[n], p), accepts);
    if !d.stopped {
      StepSays(d, frames[n], p, accepts);
      hide Step, Says, Open;
    }
  }

  lemma {:induction false} FoldConcat(d: Decoder, a: seq<Frame>, b: seq<Frame>, p: Parsers, accepts: nat)
    ensures Fold(d, a + b, p, accepts) == Fold(Fold(d, a, p, accepts), b, p, accepts)
    decreases |a|
  {
    hide Step;
    if a == [] {
      assert a + b == b;
    } else {
      FoldConcat(Step(d, a[0], p, accepts), a[1..], b, p, accepts);
      assert (a + b)[1..] == a[1..] + b;
    }
  }

  /** Handles every complete line of the buffer. */
  method Drain(d: Decoder, buffer: seq<Byte>, p: Parsers, accepts: nat, ghost later: seq<Byte>, ghost broken: Option<string>)
    returns (d': Decoder, rest: seq<Byte>)
    requires !d.stopped
    ensures Decoded(d', rest + later, broken, p, accepts) == Decoded(d, buffer + later, broken, p, accepts)
    ensures d'.stopped || Unfinished(rest)
  {
    hide FrameOf, Frames, Step, FirstNewline;
    d', rest := d, buffer;
    var newline := FirstNewline(rest);
    while newline < |rest|
      invariant newline == FirstNewline(rest) && !d'.stopped
      invariant Decoded(d', rest + later, broken, p, accepts) == Decoded(d, buffer + later, broken, p, accepts)
      decreases |rest|
    {
      var line := rest[..newline + 1];
      FramesUnfolds(rest, later, p);
      d' := Step(d', FrameOf(line, p), p, accepts);
      rest := rest[newline + 1..];
      assert ([FrameOf(line, p)] + Frames(rest + later, p))[1..] == Frames(rest + later, p);
      if d'.stopped {
        return;
      }
      newline := FirstNewline(rest);
    }
  }

  /** However the connection cuts the bytes, the receiver hears what the complete lines of
      everything received say, as far as it listens. */
  method Decode(arrivals: seq<Arrival>, p: Parsers, accepts: nat) returns (sent: seq<Item>)
    ensures sent == Take(Saying(Frames(Received(arrivals), p), Break(arrivals), p), accepts)
  {
    DecodedSays(Received(arrivals), Break(arrivals), p, accepts);
    hide Take, Saying;
    var d, buffer := FRESH, [];
    ghost var broken := Break(arrivals);
    assert [] + Received(arrivals) == Received(arrivals);
    for i := 0 to |arrivals|
      invariant !d.stopped && Unfinished(buffer)
      invariant Break(arrivals[i..]) == broken
      invariant Decoded(d, buffer + Received(arrivals[i..]), broken, p, accepts)
             == Decoded(FRESH, Received(arrivals), broken, p, accepts)
    {
      assert arrivals[i..][1..] == arrivals[i + 1..];
      match arrivals[i] {
        case Broken(message) =>
          assert buffer + [] == buffer;
          return Send(d, Error(message), accepts).sent;
        case Data(bytes) =>
          ghost var later := Received(arrivals[i + 1..]);
          assert buffer + (bytes + later) == (buffer + bytes) + later;
          d, buffer := Drain(d, buffer + bytes, p, accepts, later, broken);
          if d.stopped {
            StoppedStays(d, Frames(buffer + later, p), p, accepts);
            return d.sent;
          }
      }
    }
    assert buffer + [] == buffer;
    sent := d.sent;
  }

  // ----- tool blocks -----

  /** A frame that may stand inside a tool block without ending it. */
  predicate Inner(f: Frame) {
    f.TextDelta? || f.JsonDelta? || f.StopReason? || f.Other?
  }

  function Json(frames: seq<Frame>): string {
    if frames == [] then "" else (if frames[0].JsonDelta? then frames[0].partial else "") + Json(frames[1..])
  }

  function Said(frames: seq<Frame>): seq<Item> {
    if frames == [] then []
    else (match frames[0]
          case TextDelta(text) => [Text(text)]
          case StopReason(reason) => [Finish(reason)]
          case _ => []) + Said(frames[1..])
  }

  /** A tool block, from its start to its stop, sends exactly one call, after whatever was said
      in between, and the call's arguments parse the concatenation of the block's deltas. */
  lemma ToolBlockIsOneCall(d: Decoder, id: string, name: string, inner: seq<Frame>, p: Parsers, accepts: nat)
    requires !d.stopped && forall f | f in inner :: Inner(f)
    requires |d.sent| + |Said(inner)| < accepts
    ensures Fold(d, [ToolStart(id, name)] + inner + [BlockStop], p, accepts)
         == Decoder(None, d.sent + Said(inner) + [Call(id, name, Arguments(Json(inner), p))], false)
  {
    var started := d.(tool := Some(Block(id, name, "")));
    assert ([ToolStart(id, name)] + inner + [BlockStop])[1..] == inner + [BlockStop];
    InsideBlock(started, inner, p, accepts);
    assert "" + Json(inner) == Json(inner);
  }

  lemma {:induction false} InsideBlock(d: Decoder, inner: seq<Frame>, p: Parsers, accepts: nat)
    requires !d.stopped && d.tool.Some? && forall f | f in inner :: Inner(f)
    requires |d.sent| + |Said(inner)| < accepts
    ensures var block := d.tool.value;
      Fold(d, inner + [BlockStop], p, accepts)
      == Decoder(None, d.sent + Said(inner) + [Call(block.id, block.name, Arguments(block.json + Json(inner), p))], false)
    decreases |inner|
  {
    hide FrameOf, Arguments;
    var block := d.tool.value;
    if inner == [] {
      assert inner + [BlockStop] == [BlockStop];
      assert block.json + "" == block.json;
      assert Fold(d, [BlockStop], p, accepts) == Step(d, BlockStop, p, accepts);
    } else {
      assert inner[0] in inner;
      var d' := Step(d, inner[0], p, accepts);
      assert (inner + [BlockStop])[1..] == inner[1..] + [BlockStop];
      assert d'.sent + Said(inner[1..]) == d.sent + Said(inner);
      assert d'.tool.value.json + Json(inner[1..]) == block.json + Json(inner);
      InsideBlock(d', inner[1..], p, accepts);
    }
  }
}
