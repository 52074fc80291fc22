/** Sessions and their linear history (packages/core/src/session.ts). */
module Session {
  import opened Text
  import opened Cost
  import opened Truncate
  import opened Events

  datatype Origin = FromUser | FromModel | FromTool | FromHook | FromEngine

  datatype Message =
    | SystemMessage(origin: Origin, content: seq<Block>)
    | UserMessage(origin: Origin, content: seq<Block>)
    | AssistantMessage(content: seq<Block>, toolCalls: seq<ToolCall>)
    | ToolMessage(callId: string, name: string, ok: bool, content: seq<Block>)

  /** Message `i + 1 + k` answers call `k` of an assistant message at `i`. */
  predicate Answers(history: seq<Message>, i: nat, calls: seq<ToolCall>, k: nat)
    requires k < |calls|
  {
    i + 1 + k < |history| && history[i + 1 + k].ToolMessage? && history[i + 1 + k].callId == calls[k].callId
  }

  /** If an assistant message stands at `i`, a tool message for each of its calls follows, in order. */
  predicate Answered(history: seq<Message>, i: nat)
    requires i < |history|
  {
    history[i].AssistantMessage? ==>
      forall k :: 0 <= k < |history[i].toolCalls| ==> Answers(history, i, history[i].toolCalls, k)
  }

  predicate Linear(history: seq<Message>) {
    forall i :: 0 <= i < |history| ==> Answered(history, i)
  }

  class Session {
    var messages: seq<Message>
    var usage: Usage
    var turns: nat
    var todos: seq<string>

    constructor ()
      ensures messages == [] && usage == ZERO_USAGE && turns == 0 && todos == []
    {
      messages, usage, turns, todos := [], ZERO_USAGE, 0, [];
    }

    method Append(more: seq<Message>)
      modifies this`messages
      ensures messages == old(messages) + more
    {
      messages := messages + more;
    }

    /** The one operation that is not an append. */
    method Compact(summary: string)
      modifies this`messages
      ensures messages == [UserMessage(FromEngine, [TextBlock(summary)])] && Linear(messages)
    {
      messages := [UserMessage(FromEngine, [TextBlock(summary)])];
    }

    method RecordUsage(u: Usage)
      modifies this`usage
      ensures usage == AddUsage(old(usage), u)
    {
      usage := AddUsage(usage, u);
    }

    method HistoryIsLinear() returns (r: bool)
      ensures r <==> Linear(messages)
    {
      var index := 0;
      while index < |messages|
        invariant forall i :: 0 <= i < index && i < |messages| ==> Answered(messages, i)
      {
        if messages[index].AssistantMessage? {
          var expected := messages[index].toolCalls;
          var offset := 0;
          while offset < |expected|
            invariant 0 <= offset <= |expected|
            invariant forall k :: 0 <= k < offset ==> Answers(messages, index, expected, k)
          {
            if !(index + 1 + offset < |messages| && messages[index + 1 + offset].ToolMessage?
                 && messages[index + 1 + offset].callId == expected[offset].callId) {
              assert !Answers(messages, index, messages[index].toolCalls, offset);
              assert !Answered(messages, index);
              return false;
            }
            offset := offset + 1;
          }
          forall i | index < i <= index + |expected| && i < |messages| ensures Answered(messages, i) {
            assert Answers(messages, index, expected, i - index - 1);
          }
          index := index + |expected|;
        }
        index := index + 1;
      }
      r := true;
    }
  }

  /** One linear history behind another is linear. */
  lemma LinearAppend(a: seq<Message>, b: seq<Message>)
    requires Linear(a) && Linear(b)
    ensures Linear(a + b)
  {
    var all := a + b;
    forall i | 0 <= i < |all| ensures Answered(all, i) {
      if i < |a| {
        AnsweredInFront(a, b, i);
      } else {
        AnsweredBehind(a, b, i - |a|);
      }
    }
  }

  lemma AnsweredInFront(a: seq<Message>, b: seq<Message>, i: nat)
    requires i < |a| && Answered(a, i)
    ensures Answered(a + b, i)
  {
    var all := a + b;
    forall k | all[i].AssistantMessage? && 0 <= k < |all[i].toolCalls| ensures Answers(all, i, all[i].toolCalls, k) {
      assert Answers(a, i, a[i].toolCalls, k);
    }
  }

  lemma AnsweredBehind(a: seq<Message>, b: seq<Message>, i: nat)
    requires i < |b| && Answered(b, i)
    ensures Answered(a + b, |a| + i)
  {
    var all := a + b;
    if b[i].AssistantMessage? {
      var calls, at := b[i].toolCalls, |a| + i;
      assert all[at] == b[i];
      forall k | 0 <= k < |calls| ensures Answers(all, at, calls, k) {
        assert Answers(b, i, calls, k);
      }
    }
  }

  /** Tool messages that carry the ids of the calls, in order. */
  predicate AnswersAll(calls: seq<ToolCall>, answers: seq<Message>) {
    |answers| == |calls| && forall k :: 0 <= k < |calls| ==> answers[k].ToolMessage? && answers[k].callId == calls[k].callId
  }

  /** An assistant message alone is linear exactly with an answer to each of its calls behind it. */
  lemma AnsweredIsLinear(content: seq<Block>, calls: seq<ToolCall>, answers: seq<Message>)
    requires forall m <- answers :: m.ToolMessage?
    requires |answers| == |calls|
    ensures Linear([AssistantMessage(content, calls)] + answers) <==> AnswersAll(calls, answers)
  {
    var all := [AssistantMessage(content, calls)] + answers;
    forall i | 0 < i < |all| ensures Answered(all, i) {
      assert all[i] == answers[i - 1] && answers[i - 1] in answers;
    }
    FirstAnswered(AssistantMessage(content, calls), answers);
  }

  lemma FirstAnswered(first: Message, answers: seq<Message>)
    requires first.AssistantMessage? && |first.toolCalls| == |answers|
    ensures Answered([first] + answers, 0) <==> AnswersAll(first.toolCalls, answers)
  {
    var all, calls := [first] + answers, first.toolCalls;
    forall k | 0 <= k < |calls|
      ensures Answers(all, 0, calls, k) <==> answers[k].ToolMessage? && answers[k].callId == calls[k].callId
    {
      assert all[1 + k] == answers[k];
    }
  }

  /** Behind every assistant message there is room for an answer to each of its calls. */
  predicate Closed(history: seq<Message>) {
    forall i :: 0 <= i < |history| && history[i].AssistantMessage? ==> i + |history[i].toolCalls| < |history|
  }

  lemma ClosedStep(spoken: Message, answers: seq<Message>)
    requires spoken.AssistantMessage? && |spoken.toolCalls| == |answers| && forall m <- answers :: m.ToolMessage?
    ensures Closed([spoken] + answers)
  {
    var all := [spoken] + answers;
    forall i | 0 < i < |all| ensures all[i].ToolMessage? {
      assert all[i] == answers[i - 1];
    }
  }

  lemma LinearIsClosed(history: seq<Message>)
    requires Linear(history)
    ensures Closed(history)
  {
    forall i | 0 <= i < |history| && history[i].AssistantMessage? ensures i + |history[i].toolCalls| < |history| {
      var n := |history[i].toolCalls|;
      assert Answered(history, i);
      assert n > 0 ==> Answers(history, i, history[i].toolCalls, n - 1);
    }
  }

  /** Where a closed history ends, linearity can be told apart. */
  lemma LinearSplits(a: seq<Message>, b: seq<Message>)
    requires Closed(a) && Linear(a + b)
    ensures Linear(a) && Linear(b)
  {
    forall i | 0 <= i < |a| ensures Answered(a, i) {
      AnsweredFirst(a, b, i);
    }
    forall i | 0 <= i < |b| ensures Answered(b, i) {
      AnsweredSecond(a, b, i);
    }
  }

  lemma AnsweredFirst(a: seq<Message>, b: seq<Message>, i: nat)
    requires i < |a| && Closed(a) && Answered(a + b, i)
    ensures Answered(a, i)
  {
    if a[i].AssistantMessage? {
      forall k | 0 <= k < |a[i].toolCalls| ensures Answers(a, i, a[i].toolCalls, k) {
        assert Answers(a + b, i, (a + b)[i].toolCalls, k);
      }
    }
  }

  lemma AnsweredSecond(a: seq<Message>, b: seq<Message>, i: nat)
    requires i < |b| && Linear(a + b)
    ensures Answered(b, i)
  {
    var at := |a| + i;
    assert (a + b)[at] == b[i] && Answered(a + b, at);
    if b[i].AssistantMessage? {
      forall k | 0 <= k < |b[i].toolCalls| ensures Answers(b, i, b[i].toolCalls, k) {
        assert Answers(a + b, at, (a + b)[at].toolCalls, k);
      }
    }
  }

  lemma ClosedAppend(a: seq<Message>, b: seq<Message>)
    requires Closed(a) && Closed(b)
    ensures Closed(a + b)
  {
    var all := a + b;
    forall i | 0 <= i < |all| && all[i].AssistantMessage? ensures i + |all[i].toolCalls| < |all| {
      if i >= |a| {
        assert all[i] == b[i - |a|];
      }
    }
  }

  lemma LinearIffParts(a: seq<Message>, b: seq<Message>)
    requires Closed(a)
    ensures Linear(a + b) <==> Linear(a) && Linear(b)
  {
    if Linear(a + b) {
      LinearSplits(a, b);
    }
    if Linear(a) && Linear(b) {
      LinearAppend(a, b);
    }
  }
}
