/** The data the orchestration loop exchanges with the chat-completion API:
    tool calls, transcript messages, model replies and request parameters,
    plus the shape every tool-execution round leaves in a transcript. */
module Messages {
  import opened Wrappers

  /** A keyword-argument value as decoded from a tool call's argument string. */
  datatype ArgValue = Str(s: string) | Num(n: int) | Flag(b: bool)

  /** The keyword arguments passed to the tool manager (`**tool_args`). */
  type Args = map<string, ArgValue>

  /** A tool call requested by the model. `Unreadable` is a call object whose
      `function`/`id` attributes raise when read; the error text is what the
      raised exception says. */
  datatype ToolCall =
    | Call(id: string, name: string, arguments: string)
    | Unreadable(error: string)

  /** A tool schema offered to the model; its contents are opaque here. */
  datatype ToolSchema = ToolSchema(name: string, definition: string)

  /** One transcript entry, tagged by role. */
  datatype Message =
    | System(content: string)
    | User(content: string)
    | Assistant(content: string, toolCalls: seq<ToolCall>)
    | ToolResult(callId: string, content: string)

  /** `choices[0]` of a chat-completion response. */
  datatype Reply = Reply(finishReason: string, content: string, toolCalls: seq<ToolCall>)

  /** What one call of the chat-completion API produces: a reply, or the text
      of the exception it raised. */
  datatype ModelOutcome = ApiFailure(error: string) | Replied(reply: Reply)

  /** The keyword parameters of one chat-completion request. Absent dictionary
      keys are `None`. */
  datatype Request = Request(
    model: string,
    temperature: int,
    maxTokens: int,
    messages: seq<Message>,
    tools: Option<seq<ToolSchema>>,
    toolChoice: Option<string>)

  /** The chat-completion API as seen by the loop: its answer may depend on
      the request and on how many calls the query has already made. */
  type Oracle = (nat, Request) -> ModelOutcome

  /** Decoding of a tool call's argument string; `Failure` carries the text of
      the decoding exception. */
  type ArgParser = string -> Result<Args, string>

  /** The tool manager's `execute_tool(name, **args)`; `Failure` carries the
      text of the exception it raised. */
  datatype ToolManager = ToolManager(execute: (string, Args) -> Result<string, string>)

  /** `result` is the tool message that answers `call`. */
  predicate Answers(call: ToolCall, result: Message)
  {
    call.Call? && result.ToolResult? && result.callId == call.id
  }

  /** `results` answer `calls` one for one, in call order. */
  predicate AnswersAll(calls: seq<ToolCall>, results: seq<Message>)
  {
    |calls| == |results| && forall i :: 0 <= i < |calls| ==> Answers(calls[i], results[i])
  }

  /** `s` is a run of tool rounds: each an assistant message carrying its tool
      calls followed by exactly one tool message per call, in call order. */
  predicate ToolBlocks(s: seq<Message>)
    decreases |s|
  {
    |s| == 0 ||
    (s[0].Assistant? &&
     var k := |s[0].toolCalls|;
     1 + k <= |s| && AnswersAll(s[0].toolCalls, s[1..1 + k]) && ToolBlocks(s[1 + k..]))
  }

  /** One assistant message followed by its answers is a run of one round. */
  lemma SingleBlock(assistant: Message, results: seq<Message>)
    requires assistant.Assistant? && AnswersAll(assistant.toolCalls, results)
    ensures ToolBlocks([assistant] + results)
  {
  }

  /** Runs of tool rounds concatenate. */
  lemma {:induction false} ToolBlocksAppend(a: seq<Message>, b: seq<Message>)
    requires ToolBlocks(a) && ToolBlocks(b)
    ensures ToolBlocks(a + b)
    decreases |a|
  {
    if |a| == 0 {
      assert a + b == b;
    } else {
      var k := |a[0].toolCalls|;
      ToolBlocksAppend(a[1 + k..], b);
      var s := a + b;
      assert s[0] == a[0];
      assert s[1..1 + k] == a[1..1 + k];
      assert s[1 + k..] == a[1 + k..] + b;
    }
  }

  /** `m` is an assistant message that requested a call with identifier `id`. */
  predicate MakesCall(m: Message, id: string)
  {
    m.Assistant? && exists c :: c in m.toolCalls && c.Call? && c.id == id
  }

  /** In a run of tool rounds every tool message answers a call that an
      earlier assistant message made. */
  lemma {:induction false} ToolResultFollowsItsCall(s: seq<Message>, j: nat)
    requires ToolBlocks(s) && j < |s| && s[j].ToolResult?
    ensures exists i :: 0 <= i < j && MakesCall(s[i], s[j].callId)
    decreases |s|
  {
    var k := |s[0].toolCalls|;
    if j <= k {
      assert j != 0;
      assert s[1..1 + k][j - 1] == s[j];
      assert Answers(s[0].toolCalls[j - 1], s[j]);
      assert s[0].toolCalls[j - 1] in s[0].toolCalls;
    } else {
      var t := s[1 + k..];
      assert t[j - (1 + k)] == s[j];
      ToolResultFollowsItsCall(t, j - (1 + k));
      var i' :| 0 <= i' < j - (1 + k) && MakesCall(t[i'], t[j - (1 + k)].callId);
      assert t[i'] == s[i' + 1 + k];
    }
  }
}
