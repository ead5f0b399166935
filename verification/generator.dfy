/** The conversation-orchestration loop of `AIGenerator`: the initial
    transcript, per-round request parameters, the termination test, the tool
    step, the recursive round function and the legacy one-round handler. */
module Generator {
  import opened Wrappers
  import opened Messages

  /** The parts of an `AIGenerator` instance the loop reads: the model name
      and the (opaque) system prompt. The API client is passed separately as
      an `Oracle`. */
  datatype AIGenerator = AIGenerator(model: string, systemPrompt: string)

  const Temperature: int := 0
  const MaxTokens: int := 800
  const HistoryHeader: string := "\n\nPrevious conversation:\n"
  const AutoChoice: string := "auto"
  const ToolCallsReason: string := "tool_calls"
  const ApiErrorPrefix: string := "API调用错误: "
  const ToolStepErrorPrefix: string := "工具执行错误: "
  const ToolFailurePrefix: string := "工具执行失败: "
  const ToolFailureSeparator: string := " - "

  /** The answer returned when a model call raises. */
  function ApiErrorText(error: string): string
  {
    ApiErrorPrefix + error
  }

  /** The answer returned when an exception escapes the tool step. */
  function ToolStepErrorText(error: string): string
  {
    ToolStepErrorPrefix + error
  }

  /** The tool message content substituted for a single failing tool. */
  function ToolFailureText(name: string, error: string): string
  {
    ToolFailurePrefix + name + ToolFailureSeparator + error
  }

  /** Python's falsiness of an optional string: `None` and `""`. */
  predicate IsBlank(history: Option<string>)
  {
    history.None? || history.value == ""
  }

  /** The request carries the generator's fixed parameters. */
  predicate HasBaseParams(gen: AIGenerator, req: Request)
  {
    req.model == gen.model && req.temperature == Temperature && req.maxTokens == MaxTokens
  }

  /** The request offers tools (and automatic tool choice). */
  predicate OffersTools(req: Request)
  {
    req.tools.Some? || req.toolChoice.Some?
  }

  /** The system prompt followed, when there is any history, by the header
      and the rendered history. */
  function SystemContent(gen: AIGenerator, history: Option<string>): string
  {
    if IsBlank(history) then gen.systemPrompt
    else gen.systemPrompt + HistoryHeader + history.value
  }

  /** `_build_initial_messages`: exactly a system message and the user's query. */
  function InitialMessages(gen: AIGenerator, query: string, history: Option<string>): (r: seq<Message>)
    ensures |r| == 2 && r[0].System? && r[1] == User(query)
    ensures |gen.systemPrompt| <= |r[0].content| && r[0].content[..|gen.systemPrompt|] == gen.systemPrompt
    ensures IsBlank(history) <==> |r[0].content| == |gen.systemPrompt|
    ensures !IsBlank(history) ==>
      r[0].content[|gen.systemPrompt|..] == HistoryHeader + history.value
  {
    [System(SystemContent(gen, history)), User(query)]
  }

  /** Reads the history back out of a system message built by `InitialMessages`. */
  function RecoveredHistory(gen: AIGenerator, content: string): Option<string>
  {
    var prefix := gen.systemPrompt + HistoryHeader;
    if |prefix| <= |content| && content[..|prefix|] == prefix then Some(content[|prefix|..])
    else None
  }

  /** `_build_api_params`: the base parameters and the transcript, plus the
      tool schemas with automatic choice only in round 0 and only when there
      are schemas to offer. */
  function BuildApiParams(gen: AIGenerator, messages: seq<Message>, tools: seq<ToolSchema>, round: nat): (r: Request)
    ensures HasBaseParams(gen, r) && r.messages == messages
    ensures OffersTools(r) <==> round == 0 && |tools| > 0
    ensures r.tools.Some? ==> r.tools.value == tools && r.toolChoice == Some(AutoChoice)
    ensures r.tools.None? <==> r.toolChoice.None?
  {
    var base := Request(gen.model, Temperature, MaxTokens, messages, None, None);
    if round == 0 && |tools| > 0 then base.(tools := Some(tools), toolChoice := Some(AutoChoice))
    else base
  }

  /** `_should_terminate`: stop at the round cap, when the model did not stop
      for tool calls, when there is no tool manager, or when no calls came. */
  function ShouldTerminate(reply: Reply, round: nat, maxRounds: int, hasManager: bool): (r: bool)
    ensures !r <==> round < maxRounds && reply.finishReason == ToolCallsReason && hasManager && |reply.toolCalls| > 0
  {
    if round >= maxRounds then true
    else if reply.finishReason != ToolCallsReason then true
    else if !hasManager then true
    else if |reply.toolCalls| == 0 then true
    else false
  }

  /** `_execute_single_tool`: a decoding or dispatch failure becomes the
      tool's result text; only an unreadable call raises out of it (its
      handler reads the call's name again). */
  function ExecuteSingleTool(call: ToolCall, manager: ToolManager, parse: ArgParser): (r: Result<string, string>)
    ensures r.Failure? <==> call.Unreadable?
    ensures r.Failure? ==> r.error == call.error
    ensures call.Call? && parse(call.arguments).Failure? ==>
      r == Success(ToolFailureText(call.name, parse(call.arguments).error))
    ensures call.Call? && parse(call.arguments).Success? ==>
      var out := manager.execute(call.name, parse(call.arguments).value);
      r == Success(if out.Success? then out.value else ToolFailureText(call.name, out.error))
  {
    match call
    case Unreadable(e) => Failure(e)
    case Call(_, name, arguments) =>
      match parse(arguments)
      case Failure(e) => Success(ToolFailureText(name, e))
      case Success(args) =>
        match manager.execute(name, args)
        case Failure(e) => Success(ToolFailureText(name, e))
        case Success(text) => Success(text)
  }

  /** The tool messages of one round, one per call in call order; the first
      unreadable call aborts the round with its error. */
  function ToolResults(calls: seq<ToolCall>, manager: ToolManager, parse: ArgParser): (r: Result<seq<Message>, string>)
    ensures r.Success? <==> forall c :: c in calls ==> c.Call?
    ensures r.Success? ==> AnswersAll(calls, r.value)
    ensures r.Success? ==> forall i :: 0 <= i < |calls| ==>
      r.value[i].content == ExecuteSingleTool(calls[i], manager, parse).value
    ensures r.Failure? ==>
      (exists i :: 0 <= i < |calls| && calls[i].Unreadable? && r.error == calls[i].error &&
         forall j :: 0 <= j < i ==> calls[j].Call?)
    decreases |calls|
  {
    if |calls| == 0 then Success([])
    else
      match ExecuteSingleTool(calls[0], manager, parse)
      case Failure(e) => Failure(e)
      case Success(text) =>
        match ToolResults(calls[1..], manager, parse)
        case Failure(e) => Failure(e)
        case Success(rest) => Success([ToolResult(calls[0].id, text)] + rest)
  }

  /** `_execute_tools_and_update`: a new transcript that is the old one, then
      the assistant message with its calls, then one tool message per call. */
  function ExecuteToolsAndUpdate(reply: Reply, messages: seq<Message>, manager: ToolManager, parse: ArgParser)
    : (r: Result<seq<Message>, string>)
    ensures r.Success? <==> forall c :: c in reply.toolCalls ==> c.Call?
    ensures r.Success? ==> |r.value| == |messages| + 1 + |reply.toolCalls|
    ensures r.Success? ==> r.value[..|messages|] == messages
    ensures r.Success? ==> r.value[|messages|] == Assistant(reply.content, reply.toolCalls)
    ensures r.Success? ==> AnswersAll(reply.toolCalls, r.value[|messages| + 1..])
    ensures r.Success? ==> ToolBlocks(r.value[|messages|..])
    ensures r.Success? ==> forall i :: 0 <= i < |reply.toolCalls| ==>
      r.value[|messages| + 1 + i].content == ExecuteSingleTool(reply.toolCalls[i], manager, parse).value
    ensures r.Failure? ==>
      (exists i :: 0 <= i < |reply.toolCalls| && reply.toolCalls[i].Unreadable? &&
         r.error == reply.toolCalls[i].error &&
         forall j :: 0 <= j < i ==> reply.toolCalls[j].Call?)
  {
    match ToolResults(reply.toolCalls, manager, parse)
    case Failure(e) => Failure(e)
    case Success(results) =>
      var assistant := Assistant(reply.content, reply.toolCalls);
      var updated := messages + [assistant] + results;
      assert updated[|messages| + 1..] == results;
      assert updated[|messages|..] == [assistant] + results;
      SingleBlock(assistant, results);
      Success(updated)
  }

  /** What a query produced: the returned text, every request sent to the
      model in order, and how many tool steps were entered. */
  datatype Run = Run(answer: string, requests: seq<Request>, toolRounds: nat)

  /** The number of tool rounds still allowed from `round` on. */
  function RoundsLeft(round: nat, maxRounds: int): nat
  {
    if round < maxRounds then maxRounds - round else 0
  }

  /** Round `round` with request `req` went on to the tool step, the step
      succeeded, and `next` is the request of the following round. */
  predicate Continues(gen: AIGenerator, model: Oracle, manager: Option<ToolManager>, parse: ArgParser,
                      maxRounds: int, round: nat, req: Request, next: Request)
  {
    && model(round, req).Replied?
    && !ShouldTerminate(model(round, req).reply, round, maxRounds, manager.Some?)
    && manager.Some?
    && var step := ExecuteToolsAndUpdate(model(round, req).reply, req.messages, manager.value, parse);
    && step.Success?
    && next == BuildApiParams(gen, step.value, [], round + 1)
  }

  /** Each request of `requests` continued into the next one, the first
      being sent in round `round`. */
  predicate Chained(gen: AIGenerator, model: Oracle, manager: Option<ToolManager>, parse: ArgParser,
                    maxRounds: int, round: nat, requests: seq<Request>)
    decreases |requests|
  {
    |requests| <= 1 ||
    (Continues(gen, model, manager, parse, maxRounds, round, requests[0], requests[1]) &&
     Chained(gen, model, manager, parse, maxRounds, round + 1, requests[1..]))
  }

  /** The `i`-th link of a chain of requests. */
  lemma {:induction false} ChainLink(gen: AIGenerator, model: Oracle, manager: Option<ToolManager>, parse: ArgParser,
                                     maxRounds: int, round: nat, requests: seq<Request>, i: nat)
    requires Chained(gen, model, manager, parse, maxRounds, round, requests)
    requires i + 1 < |requests|
    ensures Continues(gen, model, manager, parse, maxRounds, round + i, requests[i], requests[i + 1])
    decreases i
  {
    if i > 0 {
      ChainLink(gen, model, manager, parse, maxRounds, round + 1, requests[1..], i - 1);
      assert requests[1..][i - 1] == requests[i] && requests[1..][i] == requests[i + 1];
    }
  }

  /** The outcome of the last model call decides the answer: its error text,
      its content when the loop stops there, or the error escaping its tool step. */
  predicate LastCallDecides(model: Oracle, manager: Option<ToolManager>, parse: ArgParser,
                            maxRounds: int, round: nat, r: Run)
    requires |r.requests| >= 1
  {
    var k := |r.requests| - 1;
    var req := r.requests[k];
    match model(round + k, req)
    case ApiFailure(e) => r.answer == ApiErrorText(e) && r.toolRounds == k
    case Replied(reply) =>
      if ShouldTerminate(reply, round + k, maxRounds, manager.Some?) then
        r.answer == reply.content && r.toolRounds == k
      else
        && manager.Some?
        && var step := ExecuteToolsAndUpdate(reply, req.messages, manager.value, parse);
        && step.Failure?
        && r.answer == ToolStepErrorText(step.error)
        && r.toolRounds == k + 1
  }

  /** `_execute_round`: one model call, the termination test, the tool step,
      and a recursive call for the next round without tools. The run sends
      at most one request per remaining round plus one, chains each request
      to the next through a successful tool step, and ends as its last call
      decides. */
  function ExecuteRound(gen: AIGenerator, model: Oracle, manager: Option<ToolManager>, parse: ArgParser,
                        messages: seq<Message>, tools: seq<ToolSchema>, round: nat, maxRounds: int): (r: Run)
    ensures 1 <= |r.requests| <= RoundsLeft(round, maxRounds) + 1
    ensures r.toolRounds <= RoundsLeft(round, maxRounds)
    ensures r.requests[0] == BuildApiParams(gen, messages, tools, round)
    ensures Chained(gen, model, manager, parse, maxRounds, round, r.requests)
    ensures LastCallDecides(model, manager, parse, maxRounds, round, r)
    decreases maxRounds - round
  {
    var req := BuildApiParams(gen, messages, tools, round);
    match model(round, req)
    case ApiFailure(e) => Run(ApiErrorText(e), [req], 0)
    case Replied(reply) =>
      if ShouldTerminate(reply, round, maxRounds, manager.Some?) then Run(reply.content, [req], 0)
      else
        match ExecuteToolsAndUpdate(reply, messages, manager.value, parse)
        case Failure(e) => Run(ToolStepErrorText(e), [req], 1)
        case Success(updated) =>
          var rest := ExecuteRound(gen, model, manager, parse, updated, [], round + 1, maxRounds);
          var r := Run(rest.answer, [req] + rest.requests, rest.toolRounds + 1);
          assert r.requests[1..] == rest.requests;
          ExtendRun(model, manager, parse, maxRounds, round, req, rest, r);
          r
  }

  /** Prepending a request to a run of the following rounds leaves the run
      decided by the same last call. */
  lemma ExtendRun(model: Oracle, manager: Option<ToolManager>, parse: ArgParser,
                  maxRounds: int, round: nat, req: Request, rest: Run, r: Run)
    requires |rest.requests| >= 1
    requires r == Run(rest.answer, [req] + rest.requests, rest.toolRounds + 1)
    requires LastCallDecides(model, manager, parse, maxRounds, round + 1, rest)
    ensures LastCallDecides(model, manager, parse, maxRounds, round, r)
  {
  }

  /** Requests after the first never offer tools: each was built for a
      round after round 0 with no tool schemas. */
  lemma LaterRoundsOfferNoTools(gen: AIGenerator, model: Oracle, manager: Option<ToolManager>, parse: ArgParser,
                                maxRounds: int, round: nat, requests: seq<Request>)
    requires Chained(gen, model, manager, parse, maxRounds, round, requests)
    ensures forall i :: 1 <= i < |requests| ==> !OffersTools(requests[i])
  {
    forall i | 1 <= i < |requests|
      ensures !OffersTools(requests[i])
    {
      ChainLink(gen, model, manager, parse, maxRounds, round, requests, i - 1);
    }
  }

  /** `generate_response`: the loop started in round 0 on the initial
      transcript. It sends at most `maxRounds + 1` requests, the first one
      carrying the initial transcript and the tools (if any), none after it
      carrying tools. */
  function GenerateResponse(gen: AIGenerator, model: Oracle, query: string, history: Option<string>,
                            tools: seq<ToolSchema>, manager: Option<ToolManager>, parse: ArgParser,
                            maxRounds: int): (r: Run)
    ensures 1 <= |r.requests| <= RoundsLeft(0, maxRounds) + 1
    ensures r.toolRounds <= RoundsLeft(0, maxRounds)
    ensures r.requests[0].messages == InitialMessages(gen, query, history)
    ensures r.requests[0] == BuildApiParams(gen, InitialMessages(gen, query, history), tools, 0)
    ensures OffersTools(r.requests[0]) <==> |tools| > 0
    ensures forall i :: 1 <= i < |r.requests| ==> !OffersTools(r.requests[i])
    ensures Chained(gen, model, manager, parse, maxRounds, 0, r.requests)
    ensures LastCallDecides(model, manager, parse, maxRounds, 0, r)
  {
    var r := ExecuteRound(gen, model, manager, parse, InitialMessages(gen, query, history), tools, 0, maxRounds);
    LaterRoundsOfferNoTools(gen, model, manager, parse, maxRounds, 0, r.requests);
    r
  }

  /** A readable call whose arguments decode and whose dispatch does not raise. */
  predicate Clean(call: ToolCall, manager: ToolManager, parse: ArgParser)
  {
    call.Call? && parse(call.arguments).Success? &&
    manager.execute(call.name, parse(call.arguments).value).Success?
  }

  /** The exception a call that is not clean raises in the legacy handler:
      its read error, its decoding error, or its dispatch error. */
  function CallError(call: ToolCall, manager: ToolManager, parse: ArgParser): string
    requires !Clean(call, manager, parse)
  {
    if call.Unreadable? then call.error
    else if parse(call.arguments).Failure? then parse(call.arguments).error
    else manager.execute(call.name, parse(call.arguments).value).error
  }

  /** The dispatcher's text for a clean call. */
  function CleanResult(call: ToolCall, manager: ToolManager, parse: ArgParser): string
    requires Clean(call, manager, parse)
  {
    manager.execute(call.name, parse(call.arguments).value).value
  }

  /** `calls[i]` is the first call that is not clean. */
  predicate FirstUnclean(calls: seq<ToolCall>, manager: ToolManager, parse: ArgParser, i: int)
  {
    0 <= i < |calls| && !Clean(calls[i], manager, parse) &&
    forall j :: 0 <= j < i ==> Clean(calls[j], manager, parse)
  }

  /** The legacy handler's tool messages: like `ToolResults`, but nothing is
      caught, so the first decoding or dispatch failure raises. */
  function LegacyToolResults(calls: seq<ToolCall>, manager: ToolManager, parse: ArgParser)
    : (r: Result<seq<Message>, string>)
    ensures r.Success? <==> forall c :: c in calls ==> Clean(c, manager, parse)
    ensures r.Success? ==> AnswersAll(calls, r.value)
    ensures r.Success? ==> forall i :: 0 <= i < |calls| ==>
      Clean(calls[i], manager, parse) && r.value[i].content == CleanResult(calls[i], manager, parse)
    ensures r.Failure? ==>
      exists i :: FirstUnclean(calls, manager, parse, i) && r.error == CallError(calls[i], manager, parse)
    decreases |calls|
  {
    if |calls| == 0 then Success([])
    else
      assert calls[0] in calls && calls == [calls[0]] + calls[1..];
      if !Clean(calls[0], manager, parse) then
        assert FirstUnclean(calls, manager, parse, 0);
        Failure(CallError(calls[0], manager, parse))
      else
        match LegacyToolResults(calls[1..], manager, parse)
        case Failure(e) =>
          var i :| FirstUnclean(calls[1..], manager, parse, i) && e == CallError(calls[1..][i], manager, parse);
          assert FirstUnclean(calls, manager, parse, i + 1);
          Failure(e)
        case Success(rest) =>
          Success([ToolResult(calls[0].id, CleanResult(calls[0], manager, parse))] + rest)
  }

  /** What the legacy handler produced: the returned text and its one request. */
  datatype Exchange = Exchange(answer: string, request: Request)

  /** `_handle_tool_execution`: append the assistant message and every tool
      result, make exactly one more model call without tools, and return its
      content; every failure propagates. */
  function HandleToolExecution(gen: AIGenerator, client: Request -> ModelOutcome, initial: Reply,
                               messages: seq<Message>, manager: ToolManager, parse: ArgParser)
    : (r: Result<Exchange, string>)
    ensures !(forall c :: c in initial.toolCalls ==> Clean(c, manager, parse)) ==>
      r.Failure? &&
      exists i :: FirstUnclean(initial.toolCalls, manager, parse, i) &&
        r.error == CallError(initial.toolCalls[i], manager, parse)
    ensures r.Failure? && (forall c :: c in initial.toolCalls ==> Clean(c, manager, parse)) ==>
      exists req :: HasBaseParams(gen, req) && !OffersTools(req) && client(req) == ApiFailure(r.error)
    ensures r.Success? ==> HasBaseParams(gen, r.value.request) && !OffersTools(r.value.request)
    ensures r.Success? ==>
      client(r.value.request).Replied? && r.value.answer == client(r.value.request).reply.content
    ensures r.Success? ==>
      var sent := r.value.request.messages;
      |sent| == |messages| + 1 + |initial.toolCalls| &&
      sent[..|messages|] == messages &&
      sent[|messages|] == Assistant(initial.content, initial.toolCalls) &&
      AnswersAll(initial.toolCalls, sent[|messages| + 1..]) &&
      forall i :: 0 <= i < |initial.toolCalls| ==>
        Clean(initial.toolCalls[i], manager, parse) &&
        sent[|messages| + 1 + i].content == CleanResult(initial.toolCalls[i], manager, parse)
  {
    match LegacyToolResults(initial.toolCalls, manager, parse)
    case Failure(e) => Failure(e)
    case Success(results) =>
      var sent := messages + [Assistant(initial.content, initial.toolCalls)] + results;
      assert sent[|messages| + 1..] == results;
      var request := Request(gen.model, Temperature, MaxTokens, sent, None, None);
      match client(request)
      case ApiFailure(e) => Failure(e)
      case Replied(reply) => Success(Exchange(reply.content, request))
  }
}
