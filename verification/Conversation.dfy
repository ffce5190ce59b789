/** The message history of an agent run, and its compaction. */
module Conversation {
  import opened Wrappers

  datatype Role = User | Assistant | Tool

  datatype ToolCall = ToolCall(id: string, name: string, arguments: string)

  datatype ToolResult = ToolResult(callId: string, content: string, isError: bool)

  datatype Content =
    | Text(text: string)
    | ToolResults(results: seq<ToolResult>)
    | ToolUse(said: Option<string>, calls: seq<ToolCall>)

  datatype Message = Message(role: Role, content: Content)

  const SUMMARY_PREFIX := "Summary of the earlier conversation (older turns were compacted to stay within the context window):\n\n"

  /** How many recent messages compaction asks to keep. */
  const KEEP_RECENT := 6

  /** An assistant turn that asks for tools, answered by one result per call, in call order. */
  ghost predicate Answered(use: Message, answer: Message) {
    && use.role == Assistant && use.content.ToolUse? && use.content.calls != []
    && answer.role == Tool && answer.content.ToolResults?
    && ResultsFor(answer.content.results, use.content.calls)
  }

  ghost predicate ResultsFor(results: seq<ToolResult>, calls: seq<ToolCall>) {
    |results| == |calls| && forall i | 0 <= i < |calls| :: results[i].callId == calls[i].id
  }

  /** What a provider must be given: one user message, then answered assistant turns. */
  ghost predicate WellPaired(ms: seq<Message>) {
    && |ms| % 2 == 1
    && ms[0].role == User && ms[0].content.Text?
    && forall i | 0 <= i < |ms| - 1 && i % 2 == 1 :: Answered(ms[i], ms[i + 1])
  }

  class Context {
    var messages: seq<Message>

    constructor ()
      ensures messages == []
    {
      messages := [];
    }

    method AddUserMessage(text: string)
      modifies this
      ensures messages == old(messages) + [Message(User, Text(text))]
    {
      messages := messages + [Message(User, Text(text))];
    }

    method AddAssistantToolUse(said: Option<string>, calls: seq<ToolCall>)
      modifies this
      ensures messages == old(messages) + [Message(Assistant, ToolUse(said, calls))]
    {
      messages := messages + [Message(Assistant, ToolUse(said, calls))];
    }

    /** Adds a result to the trailing tool message, or starts one after any other message. */
    method AddToolResult(result: ToolResult)
      requires messages != [] && messages[|messages| - 1].role == Tool ==> messages[|messages| - 1].content.ToolResults?
      modifies this
      ensures var n := |old(messages)|;
        if n > 0 && old(messages)[n - 1].role == Tool then
          messages == old(messages)[..n - 1] + [Message(Tool, ToolResults(old(messages)[n - 1].content.results + [result]))]
        else
          messages == old(messages) + [Message(Tool, ToolResults([result]))]
    {
      var n := |messages|;
      if n > 0 && messages[n - 1].role == Tool {
        messages := messages[..n - 1] + [Message(Tool, ToolResults(messages[n - 1].content.results + [result]))];
      } else {
        messages := messages + [Message(Tool, ToolResults([result]))];
      }
    }

    /** The first assistant message at or after the wanted cut, if cutting there is worth it. */
    method PickCutoff(keep: nat) returns (cutoff: Option<nat>)
      ensures cutoff.Some? ==> (
        && |messages| > keep
        && 2 <= cutoff.value < |messages| && |messages| - keep <= cutoff.value
        && messages[cutoff.value].role == Assistant
        && forall i | |messages| - keep <= i < cutoff.value :: messages[i].role != Assistant)
      ensures cutoff.None? ==>
        || |messages| <= keep
        || (forall i | |messages| - keep <= i < |messages| :: messages[i].role != Assistant)
        || (exists i | |messages| - keep <= i < 2 && i < |messages| :: messages[i].role == Assistant)
    {
      if |messages| <= keep {
        return None;
      }
      var cut := |messages| - keep;
      while cut < |messages| && messages[cut].role != Assistant
        invariant |messages| - keep <= cut <= |messages|
        invariant forall i | |messages| - keep <= i < cut :: messages[i].role != Assistant
      {
        cut := cut + 1;
      }
      if cut < 2 || cut >= |messages| {
        return None;
      }
      return Some(cut);
    }

    /** Replaces everything before the cut by one user message carrying the summary. */
    method ApplySummary(cutoff: nat, summary: string)
      requires cutoff <= |messages|
      modifies this
      ensures messages == [Message(User, Text(SUMMARY_PREFIX + summary))] + old(messages)[cutoff..]
    {
      messages := [Message(User, Text(SUMMARY_PREFIX + summary))] + messages[cutoff..];
    }
  }

  /** In a well-paired history the cut always falls six messages before the end. */
  lemma CutKeepsSix(ms: seq<Message>, cut: nat)
    requires WellPaired(ms) && |ms| > KEEP_RECENT
    requires |ms| - KEEP_RECENT <= cut < |ms| && ms[cut].role == Assistant
    requires forall i | |ms| - KEEP_RECENT <= i < cut :: ms[i].role != Assistant
    ensures cut == |ms| - KEEP_RECENT
  {
    var i := |ms| - KEEP_RECENT;
    assert Answered(ms[i], ms[i + 1]);
  }

  /** There is one exactly when at least nine messages are there. */
  lemma CutExists(ms: seq<Message>)
    requires WellPaired(ms)
    ensures |ms| > KEEP_RECENT ==> ms[|ms| - KEEP_RECENT].role == Assistant
    ensures |ms| > KEEP_RECENT && |ms| - KEEP_RECENT >= 2 <==> |ms| >= 9
  {
    if |ms| > KEEP_RECENT {
      var i := |ms| - KEEP_RECENT;
      assert Answered(ms[i], ms[i + 1]);
    }
  }

  /** Cutting on an assistant turn and putting a summary in front keeps the pairing. */
  lemma SummaryKeepsPairing(ms: seq<Message>, summary: string)
    requires WellPaired(ms) && |ms| > KEEP_RECENT + 1
    ensures var after := [Message(User, Text(SUMMARY_PREFIX + summary))] + ms[|ms| - KEEP_RECENT..];
      WellPaired(after) && |after| == KEEP_RECENT + 1 < |ms|
  {
    var cut := |ms| - KEEP_RECENT;
    var after := [Message(User, Text(SUMMARY_PREFIX + summary))] + ms[cut..];
    forall i | 0 <= i < |after| - 1 && i % 2 == 1 ensures Answered(after[i], after[i + 1]) {
      assert Answered(ms[cut + i - 1], ms[cut + i]);
    }
  }

  /** Answering one more assistant turn keeps the pairing. */
  lemma TurnKeepsPairing(ms: seq<Message>, use: Message, answer: Message)
    requires WellPaired(ms) && Answered(use, answer)
    ensures WellPaired(ms + [use, answer])
  {
    var after := ms + [use, answer];
    forall i | 0 <= i < |after| - 1 && i % 2 == 1 ensures Answered(after[i], after[i + 1]) {
      if i < |ms| {
        assert Answered(ms[i], ms[i + 1]);
      }
    }
  }
}
