/** The agent loop: call the model, run the tools it asks for, until it asks for none. */
module Agents {
  import opened Wrappers
  import opened Conversation

  datatype Event =
    | RunStarted(task: string)
    | ContextCompacted(iteration: nat, before: nat, after: nat)
    | LlmResponse(iteration: nat, calls: seq<string>, usage: Option<(nat, nat)>)
    | ToolRan(iteration: nat, name: string, arguments: string, result: string, isError: bool)
    | ToolDenied(iteration: nat, name: string, arguments: string, reason: string)
    | RunCompleted(success: bool, iterations: nat, input: nat, output: nat)

  datatype CallSummary = CallSummary(name: string, arguments: string, result: string, isError: bool)

  datatype TaskResult = TaskResult(success: bool, finalMessage: Option<string>, iterations: nat, toolCalls: seq<CallSummary>)

  // ----- the outside world -----

  datatype SummaryReply = Summarized(text: string) | NoSummary

  datatype ModelReply =
    | CancelledFirst
    | ModelFailed(message: string)
    | Response(content: Option<string>, calls: seq<ToolCall>, usage: Option<(nat, nat)>)

  datatype ToolOutcome = Denied(reason: string) | Returned(text: string) | Raised(text: string)

  /** One iteration as the world decides it: whether the context is near the window, what the
      summariser says, what the model says, how each tool call ends, after which calls the
      token is found tripped, and whether it is found tripped after the batch. */
  datatype Turn = Turn(
    nearWindow: bool,
    summary: SummaryReply,
    reply: ModelReply,
    tool: nat -> ToolOutcome,
    cancelledAfter: nat -> bool,
    cancelledAtEnd: bool)

  /** What compaction makes of a history: with nine messages or more, the last six stay behind
      one summary and the history is shorter; otherwise it stays as it is. */
  ghost predicate Compacted(keepCompacting: bool, turn: Turn, before: seq<Message>, after: seq<Message>) {
    if keepCompacting && turn.nearWindow && turn.summary.Summarized? && |before| >= 9 then
      && after == [Message(User, Text(SUMMARY_PREFIX + turn.summary.text))] + before[|before| - KEEP_RECENT..]
      && |after| < |before|
    else
      after == before
  }

  /** The results that answer a batch, each under its call's id. */
  function ResultsOf(calls: seq<ToolCall>, summaries: seq<CallSummary>): (r: seq<ToolResult>)
    requires |calls| == |summaries|
    ensures ResultsFor(r, calls)
  {
    seq(|calls|, i requires 0 <= i < |calls| => ToolResult(calls[i].id, summaries[i].result, summaries[i].isError))
  }

  /** The calls that the first `n` replies asked for. */
  function Requested(script: nat -> Turn, n: nat): seq<ToolCall> {
    if n == 0 then [] else Requested(script, n - 1) + CallsOf(script(n - 1))
  }

  function CallsOf(turn: Turn): seq<ToolCall> {
    if turn.reply.Response? then turn.reply.calls else []
  }

  lemma RequestedSnoc(script: nat -> Turn, n: nat)
    ensures Requested(script, n + 1) == Requested(script, n) + CallsOf(script(n))
  {
  }

  /** One summary per call, in order, as far as the summaries go. */
  ghost predicate Answering(summaries: seq<CallSummary>, calls: seq<ToolCall>) {
    && |summaries| <= |calls|
    && forall i | 0 <= i < |summaries| :: summaries[i].name == calls[i].name && summaries[i].arguments == calls[i].arguments
  }

  lemma AnsweringConcat(summaries: seq<CallSummary>, calls: seq<ToolCall>, more: seq<CallSummary>, asked: seq<ToolCall>)
    requires Answering(summaries, calls) && |summaries| == |calls| && Answering(more, asked)
    ensures Answering(summaries + more, calls + asked)
  {
  }

  /** The token is found tripped before the last call of a turn. */
  ghost predicate CutShort(turn: Turn) {
    turn.reply.Response? && exists i :: 0 <= i < |turn.reply.calls| - 1 && turn.cancelledAfter(i)
  }

  // ----- accounting -----

  /** What an event log adds up to. */
  datatype Tally = Tally(input: nat, output: nat, requested: nat, summaries: seq<CallSummary>, executed: seq<(string, string)>)

  const NOTHING := Tally(0, 0, 0, [], [])

  const DENIED_PREFIX := "Denied by tool policy: "

  function Count(t: Tally, e: Event): Tally {
    match e
    case LlmResponse(_, calls, usage) =>
      var spent := if usage.Some? then usage.value else (0, 0);
      t.(input := t.input + spent.0, output := t.output + spent.1, requested := t.requested + |calls|)
    case ToolRan(_, name, arguments, result, isError) =>
      t.(summaries := t.summaries + [CallSummary(name, arguments, result, isError)], executed := t.executed + [(name, arguments)])
    case ToolDenied(_, name, arguments, reason) =>
      t.(summaries := t.summaries + [CallSummary(name, arguments, DENIED_PREFIX + reason, true)])
    case _ => t
  }

  function TallyOf(events: seq<Event>): Tally {
    if events == [] then NOTHING else Count(TallyOf(events[..|events| - 1]), events[|events| - 1])
  }

  lemma TallySnoc(events: seq<Event>, e: Event)
    ensures TallyOf(events + [e]) == Count(TallyOf(events), e)
  {
    assert (events + [e])[..|events|] == events;
  }

  /** A log that has started and not completed. */
  ghost predicate Underway(events: seq<Event>, task: string) {
    && events != [] && events[0] == RunStarted(task)
    && forall i | 0 < i < |events| :: !events[i].RunStarted? && !events[i].RunCompleted?
  }

  /** A finished log: started once, completed once and last, with the true totals. */
  ghost predicate Closed(events: seq<Event>, task: string, success: bool, iterations: nat) {
    && |events| >= 2
    && Underway(events[..|events| - 1], task)
    && var tally := TallyOf(events[..|events| - 1]);
    events[|events| - 1] == RunCompleted(success, iterations, tally.input, tally.output)
  }

  // ----- what one iteration sends and logs -----

  /** One iteration: the history it starts from, what it gives the model, how the calls that it
      runs end, and what it logs. */
  datatype Exchange = Exchange(before: seq<Message>, request: seq<Message>, summaries: seq<CallSummary>, log: seq<Event>)

  function SummaryOf(call: ToolCall, outcome: ToolOutcome): CallSummary {
    match outcome
    case Denied(reason) => CallSummary(call.name, call.arguments, DENIED_PREFIX + reason, true)
    case Returned(text) => CallSummary(call.name, call.arguments, text, false)
    case Raised(text) => CallSummary(call.name, call.arguments, text, true)
  }

  /** How the first `n` calls of a turn end. */
  function Summaries(calls: seq<ToolCall>, turn: Turn, n: nat): seq<CallSummary>
    requires n <= |calls|
  {
    seq(n, i requires 0 <= i < n => SummaryOf(calls[i], turn.tool(i)))
  }

  function ToolEvent(iteration: nat, call: ToolCall, outcome: ToolOutcome): Event {
    if outcome.Denied? then ToolDenied(iteration + 1, call.name, call.arguments, outcome.reason)
    else ToolRan(iteration + 1, call.name, call.arguments, outcome.text, outcome.Raised?)
  }

  function ToolEvents(iteration: nat, calls: seq<ToolCall>, turn: Turn, n: nat): seq<Event>
    requires n <= |calls|
  {
    seq(n, i requires 0 <= i < n => ToolEvent(iteration, calls[i], turn.tool(i)))
  }

  lemma ToolEventsSnoc(iteration: nat, calls: seq<ToolCall>, turn: Turn, n: nat)
    requires n < |calls|
    ensures ToolEvents(iteration, calls, turn, n + 1)
         == ToolEvents(iteration, calls, turn, n) + [ToolEvent(iteration, calls[n], turn.tool(n))]
    ensures Summaries(calls, turn, n + 1) == Summaries(calls, turn, n) + [SummaryOf(calls[n], turn.tool(n))]
  {
    hide ToolEvent, SummaryOf;
  }

  function NamesOf(calls: seq<ToolCall>): seq<string> {
    seq(|calls|, i requires 0 <= i < |calls| => calls[i].name)
  }

  function CompactionLog(iteration: nat, before: seq<Message>, after: seq<Message>): seq<Event> {
    if after == before then [] else [ContextCompacted(iteration + 1, |before|, |after|)]
  }

  function ReplyLog(iteration: nat, turn: Turn, n: nat): seq<Event>
    requires n <= |CallsOf(turn)|
  {
    if turn.reply.Response? then
      [LlmResponse(iteration + 1, NamesOf(turn.reply.calls), turn.reply.usage)] + ToolEvents(iteration, turn.reply.calls, turn, n)
    else []
  }

  /** `n` calls are run: all of them, or those up to the first after which the token is found
      tripped. */
  ghost predicate RunsUpTo(calls: seq<ToolCall>, turn: Turn, n: nat) {
    && n <= |calls| && (forall i | 0 <= i < n - 1 :: !turn.cancelledAfter(i))
    && (n < |calls| ==> n > 0 && turn.cancelledAfter(n - 1))
  }

  /** The token is found tripped during or after the batch. */
  ghost predicate CancelledIn(calls: seq<ToolCall>, turn: Turn) {
    turn.cancelledAtEnd || exists i :: 0 <= i < |calls| && turn.cancelledAfter(i)
  }

  /** The model gets the history, compacted if that is due; the log records the compaction, the
      reply under its own names and token counts, and every call that was run, in order. */
  ghost predicate Exchanged(keepCompacting: bool, turn: Turn, iteration: nat, e: Exchange) {
    && Compacted(keepCompacting, turn, e.before, e.request)
    && RunsUpTo(CallsOf(turn), turn, |e.summaries|)
    && e.summaries == Summaries(CallsOf(turn), turn, |e.summaries|)
    && e.log == CompactionLog(iteration, e.before, e.request) + ReplyLog(iteration, turn, |e.summaries|)
  }

  /** The run goes on after the turn. */
  ghost predicate GoesOn(turn: Turn) {
    turn.reply.Response? && turn.reply.calls != [] && !CancelledIn(turn.reply.calls, turn)
  }

  /** The history after an exchange that the run goes on from: what the model was given, what it
      said and asked for, and every result under its call. */
  ghost predicate Leaves(turn: Turn, e: Exchange, after: seq<Message>) {
    && GoesOn(turn) && |e.summaries| == |turn.reply.calls|
    && after == e.request + [
         Message(Assistant, ToolUse(turn.reply.content, turn.reply.calls)),
         Message(Tool, ToolResults(AnswersTo(turn.reply.calls, turn)))]
  }

  /** Each call's result under the call's id: what the tool returned, or the reason of the denial. */
  function AnswersTo(calls: seq<ToolCall>, turn: Turn): seq<ToolResult> {
    seq(|calls|, i requires 0 <= i < |calls| =>
      match turn.tool(i)
      case Denied(reason) => ToolResult(calls[i].id, DENIED_PREFIX + reason, true)
      case Returned(text) => ToolResult(calls[i].id, text, false)
      case Raised(text) => ToolResult(calls[i].id, text, true))
  }

  lemma ResultsAnswer(calls: seq<ToolCall>, turn: Turn, summaries: seq<CallSummary>)
    requires |summaries| == |calls| && summaries == Summaries(calls, turn, |calls|)
    ensures ResultsOf(calls, summaries) == AnswersTo(calls, turn)
  {
    forall i | 0 <= i < |calls| ensures ResultsOf(calls, summaries)[i] == AnswersTo(calls, turn)[i] {
      assert summaries[i] == SummaryOf(calls[i], turn.tool(i));
      match turn.tool(i) case Denied(_) => case Returned(_) => case Raised(_) =>
    }
  }

  /** The history before the `k`th exchange: the task, or what the exchange before it leaves. */
  ghost predicate StartsFrom(task: string, script: nat -> Turn, exchanges: seq<Exchange>, k: nat, before: seq<Message>)
    requires k <= |exchanges|
  {
    if k == 0 then before == [Message(User, Text(task))] else Leaves(script(k - 1), exchanges[k - 1], before)
  }

  /** A whole run, exchange by exchange. */
  ghost predicate Conversed(keepCompacting: bool, task: string, script: nat -> Turn, exchanges: seq<Exchange>) {
    forall k | 0 <= k < |exchanges| ::
      StartsFrom(task, script, exchanges, k, exchanges[k].before) && Exchanged(keepCompacting, script(k), k, exchanges[k])
  }

  /** The requests that were made, each with its calls and their results well paired. */
  ghost predicate Sent(requests: seq<seq<Message>>, exchanges: seq<Exchange>) {
    && |requests| == |exchanges|
    && forall i | 0 <= i < |requests| :: requests[i] == exchanges[i].request && WellPaired(requests[i])
  }

  lemma SentSnoc(requests: seq<seq<Message>>, exchanges: seq<Exchange>, e: Exchange)
    requires Sent(requests, exchanges) && WellPaired(e.request)
    ensures Sent(requests + [e.request], exchanges + [e])
  {
    hide WellPaired;
  }

  function LogOf(exchanges: seq<Exchange>): seq<Event> {
    if exchanges == [] then [] else LogOf(exchanges[..|exchanges| - 1]) + exchanges[|exchanges| - 1].log
  }

  lemma NothingConversed(keepCompacting: bool, task: string, script: nat -> Turn)
    ensures Recorded(keepCompacting, task, script, [], [], [RunStarted(task)]) && Requested(script, 0) == []
    ensures StartsFrom(task, script, [], 0, [Message(User, Text(task))])
  {
  }

  lemma LeavesNext(task: string, script: nat -> Turn, exchanges: seq<Exchange>, after: seq<Message>)
    requires exchanges != [] && Leaves(script(|exchanges| - 1), exchanges[|exchanges| - 1], after)
    ensures StartsFrom(task, script, exchanges, |exchanges|, after) && GoesOn(script(|exchanges| - 1))
  {
  }

  lemma StartsFromKept(task: string, script: nat -> Turn, exchanges: seq<Exchange>, e: Exchange, k: nat, before: seq<Message>)
    requires k <= |exchanges| && StartsFrom(task, script, exchanges, k, before)
    ensures StartsFrom(task, script, exchanges + [e], k, before)
  {
    hide Leaves;
  }

  lemma ConversedSnoc(keepCompacting: bool, task: string, script: nat -> Turn, exchanges: seq<Exchange>, e: Exchange)
    requires Conversed(keepCompacting, task, script, exchanges)
    requires StartsFrom(task, script, exchanges, |exchanges|, e.before)
    requires Exchanged(keepCompacting, script(|exchanges|), |exchanges|, e)
    ensures Conversed(keepCompacting, task, script, exchanges + [e])
  {
    hide Exchanged, StartsFrom;
    var all := exchanges + [e];
    forall k | 0 <= k < |all|
      ensures StartsFrom(task, script, all, k, all[k].before) && Exchanged(keepCompacting, script(k), k, all[k])
    {
      assert k < |exchanges| ==> StartsFrom(task, script, exchanges, k, exchanges[k].before);
      StartsFromKept(task, script, exchanges, e, k, all[k].before);
    }
  }

  lemma LogSnoc(exchanges: seq<Exchange>, e: Exchange)
    ensures LogOf(exchanges + [e]) == LogOf(exchanges) + e.log
  {
    assert (exchanges + [e])[..|exchanges|] == exchanges;
  }

  /** A turn without calls runs none and logs at most its reply. */
  lemma NothingRun(iteration: nat, turn: Turn, compaction: seq<Event>)
    ensures CallsOf(turn) == [] ==> RunsUpTo(CallsOf(turn), turn, 0) && [] == Summaries(CallsOf(turn), turn, 0)
    ensures !turn.reply.Response? ==> compaction + ReplyLog(iteration, turn, 0) == compaction
    ensures turn.reply.Response? ==>
      ReplyLog(iteration, turn, 0) == [LlmResponse(iteration + 1, NamesOf(turn.reply.calls), turn.reply.usage)]
  {
  }

  /** A result for a turn on which the model did not fail: a success exactly when the model asked
      for no calls, and then with what it said. */
  ghost predicate ResultFits(turn: Turn, iterations: nat, t: TaskResult) {
    && t.iterations == iterations
    && (t.success <==> turn.reply.Response? && turn.reply.calls == [])
    && t.finalMessage == if t.success then turn.reply.content else None
  }

  /** Everything sent and logged so far, exchange by exchange. */
  ghost predicate Recorded(keepCompacting: bool, task: string, script: nat -> Turn, exchanges: seq<Exchange>,
                           requests: seq<seq<Message>>, events: seq<Event>) {
    && Conversed(keepCompacting, task, script, exchanges) && Sent(requests, exchanges)
    && events == [RunStarted(task)] + LogOf(exchanges)
  }

  lemma RecordedSnoc(keepCompacting: bool, task: string, script: nat -> Turn, exchanges: seq<Exchange>,
                     requests: seq<seq<Message>>, events: seq<Event>, e: Exchange)
    requires Recorded(keepCompacting, task, script, exchanges, requests, events)
    requires StartsFrom(task, script, exchanges, |requests|, e.before)
    requires Exchanged(keepCompacting, script(|requests|), |requests|, e) && WellPaired(e.request)
    ensures Recorded(keepCompacting, task, script, exchanges + [e], requests + [e.request], events + e.log)
  {
    hide StartsFrom, Exchanged, Conversed, WellPaired, LogOf;
    ConversedSnoc(keepCompacting, task, script, exchanges, e);
    LogSnoc(exchanges, e);
    SentSnoc(requests, exchanges, e);
    assert [RunStarted(task)] + LogOf(exchanges) + e.log == [RunStarted(task)] + (LogOf(exchanges) + e.log);
  }

  /** The last event of a log, whose values `Closed` gives, comes after everything recorded. */
  ghost predicate OneMore(before: seq<Event>, after: seq<Event>) {
    after != [] && after[..|after| - 1] == before
  }

  ghost predicate RecordedToEnd(keepCompacting: bool, task: string, script: nat -> Turn, exchanges: seq<Exchange>,
                                requests: seq<seq<Message>>, events: seq<Event>) {
    events != [] && Recorded(keepCompacting, task, script, exchanges, requests, events[..|events| - 1])
  }

  lemma RecordedEnds(keepCompacting: bool, task: string, script: nat -> Turn, exchanges: seq<Exchange>,
                     requests: seq<seq<Message>>, log: seq<Event>, events: seq<Event>)
    requires Recorded(keepCompacting, task, script, exchanges, requests, log) && OneMore(log, events)
    ensures RecordedToEnd(keepCompacting, task, script, exchanges, requests, events)
  {
  }

  class Agent {
    const keepCompacting: bool
    var events: seq<Event>
    /** The context given to the model at each main call. */
    ghost var requests: seq<seq<Message>>
    /** The calls that were really executed. */
    ghost var executed: seq<(string, string)>

    constructor (keepCompacting: bool)
      ensures this.keepCompacting == keepCompacting && events == [] && requests == [] && executed == []
    {
      this.keepCompacting := keepCompacting;
      events, requests, executed := [], [], [];
    }

    ghost predicate Consistent(task: string)
      reads `events, `executed
    {
      && Underway(events, task)
      && TallyOf(events).executed == executed
      && |executed| <= |TallyOf(events).summaries|
    }

    method Emit(e: Event)
      modifies this`events
      ensures events == old(events) + [e]
      ensures TallyOf(events) == Count(old(TallyOf(events)), e)
      ensures forall task | old(Underway(events, task)) && !e.RunStarted? && !e.RunCompleted? :: Underway(events, task)
    {
      TallySnoc(events, e);
      events := events + [e];
    }

    /** Emits the last event of a run. */
    method Complete(task: string, success: bool, iterations: nat, input: nat, output: nat)
      requires Consistent(task) && input == TallyOf(events).input && output == TallyOf(events).output
      modifies this`events
      ensures TallyOf(events).executed == executed
      ensures events == old(events) + [RunCompleted(success, iterations, input, output)]
      ensures TallyOf(events) == old(TallyOf(events))
      ensures Closed(events, task, success, iterations)
    {
      Emit(RunCompleted(success, iterations, input, output));
      assert events[..|events| - 1] == old(events);
    }

    /** Summarises the older turns when the context nears the window and there are at least nine
        messages: the last six are kept behind one summary. Otherwise nothing changes. */
    method MaybeCompact(context: Context, iteration: nat, turn: Turn, ghost task: string)
      requires WellPaired(context.messages) && Consistent(task)
      modifies this`events, context
      ensures WellPaired(context.messages) && Consistent(task)
      ensures TallyOf(events) == old(TallyOf(events))
      ensures Compacted(keepCompacting, turn, old(context.messages), context.messages)
      ensures events == old(events) + CompactionLog(iteration, old(context.messages), context.messages)
    {
      if !keepCompacting || !turn.nearWindow {
        return;
      }
      CutExists(context.messages);
      var cutoff := context.PickCutoff(KEEP_RECENT);
      if cutoff.None? {
        return;
      }
      if turn.summary.NoSummary? {
        return;
      }
      var before := |context.messages|;
      CutKeepsSix(context.messages, cutoff.value);
      SummaryKeepsPairing(context.messages, turn.summary.text);
      context.ApplySummary(cutoff.value, turn.summary.text);
      Emit(ContextCompacted(iteration + 1, before, |context.messages|));
    }

    /** Decides and runs one tool call: a denied call is reported and never executed. */
    method RunTool(iteration: nat, call: ToolCall, outcome: ToolOutcome, ghost task: string)
      returns (summary: CallSummary)
      requires Consistent(task)
      modifies this`events, this`executed
      ensures Consistent(task)
      ensures var t := old(TallyOf(events));
        TallyOf(events) == t.(summaries := t.summaries + [summary],
                              executed := t.executed + if outcome.Denied? then [] else [(call.name, call.arguments)])
      ensures summary.name == call.name && summary.arguments == call.arguments
      ensures summary.isError <==> !outcome.Returned?
      ensures summary.result == match outcome
        case Denied(reason) => DENIED_PREFIX + reason
        case Returned(text) => text
        case Raised(text) => text
      ensures summary == SummaryOf(call, outcome)
      ensures events == old(events) + [ToolEvent(iteration, call, outcome)]
    {
      match outcome {
        case Denied(reason) =>
          Emit(ToolDenied(iteration + 1, call.name, call.arguments, reason));
          summary := CallSummary(call.name, call.arguments, DENIED_PREFIX + reason, true);
        case Returned(text) =>
          executed := executed + [(call.name, call.arguments)];
          Emit(ToolRan(iteration + 1, call.name, call.arguments, text, false));
          summary := CallSummary(call.name, call.arguments, text, false);
        case Raised(text) =>
          executed := executed + [(call.name, call.arguments)];
          Emit(ToolRan(iteration + 1, call.name, call.arguments, text, true));
          summary := CallSummary(call.name, call.arguments, text, true);
      }
    }

    /** Runs a batch of tool calls in order until the token is found tripped. */
    method RunBatch(context: Context, iteration: nat, calls: seq<ToolCall>, turn: Turn, ghost task: string)
      returns (summaries: seq<CallSummary>, cancelled: bool)
      requires Consistent(task) && calls != []
      requires context.messages != [] && context.messages[|context.messages| - 1].role == Assistant
      modifies this`events, this`executed, context
      ensures Consistent(task)
      ensures TallyOf(events).summaries == old(TallyOf(events)).summaries + summaries
      ensures TallyOf(events).input == old(TallyOf(events)).input && TallyOf(events).output == old(TallyOf(events)).output
      ensures TallyOf(events).requested == old(TallyOf(events)).requested
      ensures Answering(summaries, calls)
      ensures !cancelled ==> |summaries| == |calls|
      ensures |summaries| < |calls| ==> exists i :: 0 <= i < |calls| - 1 && turn.cancelledAfter(i)
      ensures !cancelled ==> context.messages == old(context.messages) + [Message(Tool, ToolResults(ResultsOf(calls, summaries)))]
      ensures cancelled <==> CancelledIn(calls, turn)
      ensures RunsUpTo(calls, turn, |summaries|) && summaries == Summaries(calls, turn, |summaries|)
      ensures events == old(events) + ToolEvents(iteration, calls, turn, |summaries|)
    {
      hide TallyOf, Consistent, SummaryOf, ToolEvent;
      summaries, cancelled := [], false;
      ghost var results: seq<ToolResult> := [];
      ghost var before := context.messages;
      for i := 0 to |calls|
        invariant Consistent(task) && !cancelled
        invariant |summaries| == i == |results|
        invariant summaries == Summaries(calls, turn, i) && events == old(events) + ToolEvents(iteration, calls, turn, i)
        invariant forall j | 0 <= j < i :: !turn.cancelledAfter(j)
        invariant forall j | 0 <= j < i ::
          && summaries[j].name == calls[j].name && summaries[j].arguments == calls[j].arguments
          && results[j] == ToolResult(calls[j].id, summaries[j].result, summaries[j].isError)
        invariant TallyOf(events).summaries == old(TallyOf(events)).summaries + summaries
        invariant TallyOf(events).input == old(TallyOf(events)).input && TallyOf(events).output == old(TallyOf(events)).output
        invariant TallyOf(events).requested == old(TallyOf(events)).requested
        invariant i == 0 ==> context.messages == before
        invariant i > 0 ==> context.messages == before + [Message(Tool, ToolResults(results))]
      {
        var summary := RunTool(iteration, calls[i], turn.tool(i), task);
        ToolEventsSnoc(iteration, calls, turn, i);
        summaries := summaries + [summary];
        var result := ToolResult(calls[i].id, summary.result, summary.isError);
        ghost var collected := context.messages;
        assert i > 0 ==> collected[..|before|] == before;
        context.AddToolResult(result);
        assert i == 0 ==> results + [result] == [result];
        results := results + [result];
        if turn.cancelledAfter(i) {
          return summaries, true;
        }
      }
      assert results == ResultsOf(calls, summaries);
      cancelled := turn.cancelledAtEnd;
    }

    /** Records the assistant turn, then runs its batch; unless cancelled, every call has its
        result and the history can be sent again. */
    method TakeTurn(context: Context, iteration: nat, said: Option<string>, calls: seq<ToolCall>, turn: Turn, ghost task: string)
      returns (summaries: seq<CallSummary>, cancelled: bool)
      requires WellPaired(context.messages) && Consistent(task) && calls != []
      requires turn.reply.Response? && turn.reply.calls == calls
      modifies this`events, this`executed, context
      ensures Consistent(task)
      ensures !cancelled ==> WellPaired(context.messages) && |summaries| == |calls|
      ensures !cancelled ==> (
        var answer := Message(Tool, ToolResults(ResultsOf(calls, summaries)));
        context.messages == old(context.messages) + [Message(Assistant, ToolUse(said, calls)), answer])
      ensures Answering(summaries, calls) && |summaries| <= |calls|
      ensures |summaries| < |calls| ==> CutShort(turn)
      ensures TallyOf(events).summaries == old(TallyOf(events)).summaries + summaries
      ensures TallyOf(events).input == old(TallyOf(events)).input && TallyOf(events).output == old(TallyOf(events)).output
      ensures TallyOf(events).requested == old(TallyOf(events)).requested
      ensures cancelled <==> CancelledIn(calls, turn)
      ensures RunsUpTo(calls, turn, |summaries|) && summaries == Summaries(calls, turn, |summaries|)
      ensures events == old(events) + ToolEvents(iteration, calls, turn, |summaries|)
    {
      hide TallyOf, Consistent, RunsUpTo, CancelledIn, Summaries, ToolEvents;
      ghost var paired := context.messages;
      var use := Message(Assistant, ToolUse(said, calls));
      context.AddAssistantToolUse(said, calls);
      summaries, cancelled := RunBatch(context, iteration, calls, turn, task);
      if !cancelled {
        ghost var answer := Message(Tool, ToolResults(ResultsOf(calls, summaries)));
        TurnKeepsPairing(paired, use, answer);
        assert context.messages == paired + [use, answer];
      }
    }

    /** Counts and logs a model reply. */
    method Receive(iteration: nat, calls: seq<ToolCall>, usage: Option<(nat, nat)>, input: nat, output: nat, ghost task: string)
      returns (input': nat, output': nat)
      requires Consistent(task) && input == TallyOf(events).input && output == TallyOf(events).output
      modifies this`events
      ensures Consistent(task) && input' == TallyOf(events).input && output' == TallyOf(events).output
      ensures TallyOf(events).summaries == old(TallyOf(events)).summaries
      ensures TallyOf(events).requested == old(TallyOf(events)).requested + |calls|
      ensures events == old(events) + [LlmResponse(iteration + 1, NamesOf(calls), usage)]
    {
      input', output' := input, output;
      if usage.Some? {
        input', output' := input + usage.value.0, output + usage.value.1;
      }
      Emit(LlmResponse(iteration + 1, NamesOf(calls), usage));
    }

    /** The log so far: `asked` was requested, `toolCalls` says what became of it, and the token
        totals are the log's. */
    ghost predicate Accounted(task: string, asked: seq<ToolCall>, toolCalls: seq<CallSummary>, input: nat, output: nat)
      reads `events, `executed
    {
      && Consistent(task)
      && toolCalls == TallyOf(events).summaries && Answering(toolCalls, asked)
      && TallyOf(events).requested == |asked|
      && input == TallyOf(events).input && output == TallyOf(events).output
    }

    /** The run has ended in `turn` with `result`. */
    ghost predicate Ended(task: string, asked: seq<ToolCall>, turn: Turn, iterations: nat, result: Result<TaskResult, string>)
      reads `events, `executed
    {
      var tally := TallyOf(events);
      && tally.executed == executed
      && Answering(tally.summaries, asked) && tally.requested == |asked|
      && (|tally.summaries| < |asked| ==> CutShort(turn))
      && Closed(events, task, result.Success? && result.value.success, iterations)
      && match result
         case Failure(message) => turn.reply == ModelFailed(message)
         case Success(t) => !turn.reply.ModelFailed? && t.toolCalls == tally.summaries && ResultFits(turn, iterations, t)
    }

    /** Ends the run. */
    method End(task: string, result: Result<TaskResult, string>, iterations: nat, toolCalls: seq<CallSummary>, input: nat, output: nat,
               ghost asked: seq<ToolCall>, ghost turn: Turn)
      requires Accounted(task, asked, toolCalls, input, output)
      requires |toolCalls| < |asked| ==> CutShort(turn)
      requires match result
        case Failure(message) => turn.reply == ModelFailed(message)
        case Success(t) => !turn.reply.ModelFailed? && t.toolCalls == toolCalls && ResultFits(turn, iterations, t)
      modifies this`events
      ensures Ended(task, asked, turn, iterations, result)
      ensures OneMore(old(events), events)
    {
      hide TallyOf, Consistent, Closed, CutShort, Answering, ResultFits;
      Complete(task, result.Success? && result.value.success, iterations, input, output);
    }

    /** One iteration: compaction, the model call, and the tools it asks for. */
    method Iterate(context: Context, iteration: nat, turn: Turn, task: string, toolCalls: seq<CallSummary>, input: nat, output: nat,
                   ghost asked: seq<ToolCall>)
      returns (result: Option<Result<TaskResult, string>>, toolCalls': seq<CallSummary>, input': nat, output': nat,
               ghost e: Exchange)
      requires Accounted(task, asked, toolCalls, input, output) && |toolCalls| == |asked| && WellPaired(context.messages)
      modifies this, context
      ensures e.before == old(context.messages) && Exchanged(keepCompacting, turn, iteration, e)
      ensures requests == old(requests) + [e.request] && WellPaired(e.request)
      ensures result.None? <==> GoesOn(turn)
      ensures result.None? ==> Leaves(turn, e, context.messages) && events == old(events) + e.log
      ensures result.Some? ==> OneMore(old(events) + e.log, events)
      ensures result.None? ==> WellPaired(context.messages)
      ensures result.None? ==> Accounted(task, asked + CallsOf(turn), toolCalls', input', output')
      ensures result.None? ==> |toolCalls'| == |asked + CallsOf(turn)|
      ensures result.Some? ==> Ended(task, asked + CallsOf(turn), turn, iteration + 1, result.value)
    {
      hide TallyOf, Consistent, Closed, WellPaired, Compacted, ResultsOf, CutShort, Answering, Ended;
      hide CancelledIn, RunsUpTo, Summaries, ToolEvents, CompactionLog, NamesOf;
      toolCalls', input', output' := toolCalls, input, output;
      ghost var before := context.messages;
      MaybeCompact(context, iteration, turn, task);
      requests := requests + [context.messages];
      ghost var compaction := CompactionLog(iteration, before, context.messages);
      e := Exchange(before, context.messages, [], compaction + ReplyLog(iteration, turn, 0));
      NothingRun(iteration, turn, compaction);
      match turn.reply {
        case CancelledFirst =>
          assert asked + [] == asked;
          var r := Success(TaskResult(false, None, iteration + 1, toolCalls));
          End(task, r, iteration + 1, toolCalls, input, output, asked, turn);
          result := Some(r);
        case ModelFailed(message) =>
          assert asked + [] == asked;
          End(task, Failure(message), iteration + 1, toolCalls, input, output, asked, turn);
          result := Some(Failure(message));
        case Response(content, calls, usage) =>
          input', output' := Receive(iteration, calls, usage, input, output, task);
          if calls == [] {
            assert asked + [] == asked;
            var r := Success(TaskResult(true, content, iteration + 1, toolCalls));
            End(task, r, iteration + 1, toolCalls, input', output', asked, turn);
            return Some(r), toolCalls, input', output', e;
          }
          var summaries, cancelled := TakeTurn(context, iteration, content, calls, turn, task);
          AnsweringConcat(toolCalls, asked, summaries, calls);
          toolCalls' := toolCalls + summaries;
          if |summaries| == |calls| {
            ResultsAnswer(calls, turn, summaries);
          }
          e := e.(summaries := summaries, log := compaction + ReplyLog(iteration, turn, |summaries|));
          result := None;
          if cancelled {
            var r := Success(TaskResult(false, None, iteration + 1, toolCalls'));
            End(task, r, iteration + 1, toolCalls', input', output', asked + calls, turn);
            result := Some(r);
          }
      }
    }

    /** Opens the conversation with the task, and the log. */
    method Begin(task: string) returns (context: Context)
      requires events == [] && requests == [] && executed == []
      modifies this`events
      ensures fresh(context) && context.messages == [Message(User, Text(task))] && WellPaired(context.messages)
      ensures events == [RunStarted(task)] && Accounted(task, [], [], 0, 0)
    {
      context := new Context();
      context.AddUserMessage(task);
      Emit(RunStarted(task));
    }

    /** Runs a task. The model first gets the task, then after every batch all that it was given
        before, compacted if that is due, with its own turn and the results of its calls. The log
        opens with one start event, records every exchange in order, and closes with one completion
        event carrying the true token totals; the tool summaries are those of the log and answer
        the requested calls in order, all of them unless the last batch was cancelled before its
        last call; only logged calls were executed. A run that the limit stops ends like one that
        never succeeded. */
    method Run(task: string, maxIterations: nat, script: nat -> Turn)
      returns (r: Result<TaskResult, string>, ghost exchanges: seq<Exchange>)
      requires events == [] && requests == [] && executed == []
      modifies this
      ensures RecordedToEnd(keepCompacting, task, script, exchanges, requests, events)
      ensures Finished(task, script, |requests|, maxIterations, r)
    {
      var toolCalls: seq<CallSummary>, input, output := [], 0, 0;
      var context := Begin(task);
      exchanges := [];
      NothingConversed(keepCompacting, task, script);
      hide Recorded, StartsFrom, WellPaired, Accounted, RecordedToEnd, Finished;
      for iteration := 0 to maxIterations
        invariant fresh(context) && Going(task, script, iteration, exchanges, context.messages, toolCalls, input, output)
      {
        hide Going;
        var result;
        result, toolCalls, input, output, exchanges :=
          Proceed(context, iteration, maxIterations, task, script, toolCalls, input, output, exchanges);
        if result.Some? {
          return result.value, exchanges;
        }
      }
      ghost var log := events;
      r := Stop(task, script, maxIterations, toolCalls, input, output);
      RecordedEnds(keepCompacting, task, script, exchanges, requests, log, events);
    }

    /** The run so far, after `n` iterations that it goes on from. */
    ghost predicate Going(task: string, script: nat -> Turn, n: nat, exchanges: seq<Exchange>, messages: seq<Message>,
                          toolCalls: seq<CallSummary>, input: nat, output: nat)
      reads this
    {
      && |requests| == n == |exchanges| && Recorded(keepCompacting, task, script, exchanges, requests, events)
      && StartsFrom(task, script, exchanges, n, messages) && WellPaired(messages)
      && Accounted(task, Requested(script, n), toolCalls, input, output) && |toolCalls| == |Requested(script, n)|
      && (n > 0 ==> GoesOn(script(n - 1)))
    }

    /** One more iteration. */
    method Proceed(context: Context, iteration: nat, maxIterations: nat, task: string, script: nat -> Turn,
                   toolCalls: seq<CallSummary>, input: nat, output: nat, ghost exchanges: seq<Exchange>)
      returns (result: Option<Result<TaskResult, string>>, toolCalls': seq<CallSummary>, input': nat, output': nat,
               ghost exchanges': seq<Exchange>)
      requires Going(task, script, iteration, exchanges, context.messages, toolCalls, input, output)
      requires iteration < maxIterations
      modifies this, context
      ensures result.None? ==>
        Going(task, script, iteration + 1, exchanges', context.messages, toolCalls', input', output')
      ensures result.Some? ==>
        && RecordedToEnd(keepCompacting, task, script, exchanges', requests, events)
        && Finished(task, script, |requests|, maxIterations, result.value)
    {
      hide WellPaired, Ended, Requested, StartsFrom, Exchanged, Recorded, RecordedToEnd, Leaves, GoesOn, Accounted, Finished;
      RequestedSnoc(script, iteration);
      ghost var sent, log := requests, events;
      ghost var e;
      result, toolCalls', input', output', e :=
        Iterate(context, iteration, script(iteration), task, toolCalls, input, output, Requested(script, iteration));
      RecordedSnoc(keepCompacting, task, script, exchanges, sent, log, e);
      exchanges' := exchanges + [e];
      if result.Some? {
        FinishedByTurn(task, script, iteration + 1, maxIterations, result.value);
        RecordedEnds(keepCompacting, task, script, exchanges', requests, log + e.log, events);
      } else {
        LeavesNext(task, script, exchanges', context.messages);
      }
    }

    /** The iteration limit is reached: the run ends without success. */
    method Stop(task: string, ghost script: nat -> Turn, maxIterations: nat, toolCalls: seq<CallSummary>, input: nat, output: nat)
      returns (r: Result<TaskResult, string>)
      requires Accounted(task, Requested(script, maxIterations), toolCalls, input, output)
      requires |toolCalls| == |Requested(script, maxIterations)|
      requires maxIterations > 0 ==> GoesOn(script(maxIterations - 1))
      modifies this`events
      ensures Finished(task, script, maxIterations, maxIterations, r)
      ensures OneMore(old(events), events)
    {
      hide GoesOn, Requested;
      Complete(task, false, maxIterations, input, output);
      r := Success(TaskResult(false, None, maxIterations, toolCalls));
    }

    /** The run has been stopped by the iteration limit: every requested call has its summary. */
    ghost predicate Limited(task: string, asked: seq<ToolCall>, maxIterations: nat, result: Result<TaskResult, string>)
      reads `events, `executed
    {
      var tally := TallyOf(events);
      && tally.executed == executed
      && Answering(tally.summaries, asked) && |tally.summaries| == |asked| == tally.requested
      && Closed(events, task, false, maxIterations)
      && result == Success(TaskResult(false, None, maxIterations, tally.summaries))
    }

    /** A run that has made `n` requests ends at the first turn that it does not go on from, or
        when the limit is reached. */
    ghost predicate Finished(task: string, script: nat -> Turn, n: nat, maxIterations: nat, r: Result<TaskResult, string>)
      reads `events, `executed
    {
      && n <= maxIterations && (r.Success? ==> r.value.iterations == n)
      && if n > 0 && !GoesOn(script(n - 1)) then Ended(task, Requested(script, n), script(n - 1), n, r)
         else n == maxIterations && Limited(task, Requested(script, n), n, r)
    }

    lemma FinishedByTurn(task: string, script: nat -> Turn, n: nat, maxIterations: nat, r: Result<TaskResult, string>)
      requires 0 < n <= maxIterations && !GoesOn(script(n - 1)) && Ended(task, Requested(script, n), script(n - 1), n, r)
      ensures Finished(task, script, n, maxIterations, r)
    {
    }
  }
}
