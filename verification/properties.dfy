/** Properties of whole queries: the history round trip, the shape of every
    transcript sent, how failures end a query, the round cap being reached,
    and how the legacy handler relates to one round of the loop. */
module Properties {
  import opened Wrappers
  import opened Messages
  import opened Generator

  /** The history placed in the system message can be read back: nothing
      when it was absent or empty, the history itself otherwise. */
  lemma HistoryRoundTrip(gen: AIGenerator, query: string, history: Option<string>)
    ensures RecoveredHistory(gen, InitialMessages(gen, query, history)[0].content) ==
      (if IsBlank(history) then None else history)
  {
  }

  /** A transcript as sent to the model: the system message, the user's
      query, then complete tool rounds only. */
  predicate WellFormedTranscript(query: string, s: seq<Message>)
  {
    |s| >= 2 && s[0].System? && s[1] == User(query) && ToolBlocks(s[2..])
  }

  /** Each link of a chain extends its transcript by one whole tool round. */
  lemma LinkExtends(gen: AIGenerator, model: Oracle, manager: Option<ToolManager>, parse: ArgParser,
                    maxRounds: int, round: nat, requests: seq<Request>, i: nat)
    requires Chained(gen, model, manager, parse, maxRounds, round, requests)
    requires i + 1 < |requests|
    ensures requests[i].messages <= requests[i + 1].messages
    ensures ToolBlocks(requests[i + 1].messages[|requests[i].messages|..])
  {
    ChainLink(gen, model, manager, parse, maxRounds, round, requests, i);
    var req := requests[i];
    var step := ExecuteToolsAndUpdate(model(round + i, req).reply, req.messages, manager.value, parse);
    assert requests[i + 1].messages == step.value;
  }

  /** Runs of tool rounds laid one after another along growing transcripts. */
  lemma BlocksAcrossPrefixes(m0: seq<Message>, prev: seq<Message>, cur: seq<Message>)
    requires m0 <= prev && prev <= cur
    requires ToolBlocks(prev[|m0|..]) && ToolBlocks(cur[|prev|..])
    ensures m0 <= cur && ToolBlocks(cur[|m0|..])
  {
    assert cur[|m0|..] == prev[|m0|..] + cur[|prev|..];
    ToolBlocksAppend(prev[|m0|..], cur[|prev|..]);
  }

  /** Along a chain of continued rounds each transcript extends the first
      one by whole tool rounds. */
  lemma {:induction false} ChainedTranscripts(gen: AIGenerator, model: Oracle, manager: Option<ToolManager>,
                                              parse: ArgParser, maxRounds: int, round: nat,
                                              requests: seq<Request>, i: nat)
    requires i < |requests|
    requires Chained(gen, model, manager, parse, maxRounds, round, requests)
    ensures requests[0].messages <= requests[i].messages
    ensures ToolBlocks(requests[i].messages[|requests[0].messages|..])
    decreases i
  {
    if i == 0 {
      assert requests[i].messages[|requests[0].messages|..] == [];
    } else {
      ChainedTranscripts(gen, model, manager, parse, maxRounds, round, requests, i - 1);
      LinkExtends(gen, model, manager, parse, maxRounds, round, requests, i - 1);
      BlocksAcrossPrefixes(requests[0].messages, requests[i - 1].messages, requests[i].messages);
    }
  }

  /** Every request of a query carries a well-formed transcript that starts
      with the initial messages. */
  lemma GeneratedTranscriptsWellFormed(gen: AIGenerator, model: Oracle, query: string, history: Option<string>,
                                       tools: seq<ToolSchema>, manager: Option<ToolManager>, parse: ArgParser,
                                       maxRounds: int)
    ensures var r := GenerateResponse(gen, model, query, history, tools, manager, parse, maxRounds);
      forall i :: 0 <= i < |r.requests| ==>
        InitialMessages(gen, query, history) <= r.requests[i].messages &&
        WellFormedTranscript(query, r.requests[i].messages)
  {
    var init := InitialMessages(gen, query, history);
    var r := GenerateResponse(gen, model, query, history, tools, manager, parse, maxRounds);
    forall i | 0 <= i < |r.requests|
      ensures init <= r.requests[i].messages && WellFormedTranscript(query, r.requests[i].messages)
    {
      ChainedTranscripts(gen, model, manager, parse, maxRounds, 0, r.requests, i);
      var s := r.requests[i].messages;
      assert s[..2] == init;
      assert s[0] == init[0] && s[1] == init[1];
    }
  }

  /** When the first reply already terminates the loop, exactly one model call
      is made, no tool runs, and the reply's content is the answer. */
  lemma TerminationRunsNoTools(gen: AIGenerator, model: Oracle, manager: Option<ToolManager>, parse: ArgParser,
                               messages: seq<Message>, tools: seq<ToolSchema>, round: nat, maxRounds: int)
    requires var req := BuildApiParams(gen, messages, tools, round);
      model(round, req).Replied? && ShouldTerminate(model(round, req).reply, round, maxRounds, manager.Some?)
    ensures var r := ExecuteRound(gen, model, manager, parse, messages, tools, round, maxRounds);
      |r.requests| == 1 && r.toolRounds == 0 &&
      r.answer == model(round, BuildApiParams(gen, messages, tools, round)).reply.content
  {
  }

  /** In a chained run decided by its last call, a call that raised is the
      last one and its error text is the answer. */
  lemma ApiFailureEndsRun(gen: AIGenerator, model: Oracle, manager: Option<ToolManager>, parse: ArgParser,
                          maxRounds: int, round: nat, r: Run, k: nat)
    requires 1 <= |r.requests|
    requires Chained(gen, model, manager, parse, maxRounds, round, r.requests)
    requires LastCallDecides(model, manager, parse, maxRounds, round, r)
    requires k < |r.requests| && model(round + k, r.requests[k]).ApiFailure?
    ensures k == |r.requests| - 1 && r.toolRounds == k
    ensures r.answer == ApiErrorText(model(round + k, r.requests[k]).error)
  {
    if k < |r.requests| - 1 {
      ChainLink(gen, model, manager, parse, maxRounds, round, r.requests, k);
      assert false;
    }
  }

  /** A model call that raises, in whichever round of a query, is its last
      call: the query returns the API error text after `k` tool rounds. */
  lemma ApiFailureEndsQuery(gen: AIGenerator, model: Oracle, query: string, history: Option<string>,
                            tools: seq<ToolSchema>, manager: Option<ToolManager>, parse: ArgParser,
                            maxRounds: int, k: nat)
    requires var r := GenerateResponse(gen, model, query, history, tools, manager, parse, maxRounds);
      k < |r.requests| && model(k, r.requests[k]).ApiFailure?
    ensures var r := GenerateResponse(gen, model, query, history, tools, manager, parse, maxRounds);
      k == |r.requests| - 1 && r.toolRounds == k &&
      r.answer == ApiErrorText(model(k, r.requests[k]).error)
  {
    var r := GenerateResponse(gen, model, query, history, tools, manager, parse, maxRounds);
    ApiFailureEndsRun(gen, model, manager, parse, maxRounds, 0, r, k);
  }

  /** An exception escaping the tool step ends the run after the round's
      single model call, with the error text of the first unreadable call. */
  lemma ToolStepFailureEndsRound(gen: AIGenerator, model: Oracle, manager: ToolManager, parse: ArgParser,
                                 messages: seq<Message>, tools: seq<ToolSchema>, round: nat, maxRounds: int,
                                 reply: Reply, j: nat)
    requires model(round, BuildApiParams(gen, messages, tools, round)) == Replied(reply)
    requires !ShouldTerminate(reply, round, maxRounds, true)
    requires j < |reply.toolCalls| && reply.toolCalls[j].Unreadable?
    ensures var r := ExecuteRound(gen, model, Some(manager), parse, messages, tools, round, maxRounds);
      |r.requests| == 1 && r.toolRounds == 1 &&
      exists i :: 0 <= i <= j && reply.toolCalls[i].Unreadable? &&
        (forall k :: 0 <= k < i ==> reply.toolCalls[k].Call?) &&
        r.answer == ToolStepErrorText(reply.toolCalls[i].error)
  {
  }

  /** An exception escaping the tool step of round `k` of a query ends the
      query: no further call is made, `k + 1` tool steps were entered, and
      the answer carries the error of the round's first unreadable call. */
  lemma ToolStepFailureEndsQuery(gen: AIGenerator, model: Oracle, query: string, history: Option<string>,
                                 tools: seq<ToolSchema>, manager: ToolManager, parse: ArgParser,
                                 maxRounds: int, k: nat, j: nat)
    requires var r := GenerateResponse(gen, model, query, history, tools, Some(manager), parse, maxRounds);
      k < |r.requests| && model(k, r.requests[k]).Replied? &&
      !ShouldTerminate(model(k, r.requests[k]).reply, k, maxRounds, true) &&
      j < |model(k, r.requests[k]).reply.toolCalls| && model(k, r.requests[k]).reply.toolCalls[j].Unreadable?
    ensures var r := GenerateResponse(gen, model, query, history, tools, Some(manager), parse, maxRounds);
      var calls := model(k, r.requests[k]).reply.toolCalls;
      k == |r.requests| - 1 && r.toolRounds == k + 1 &&
      exists i :: 0 <= i <= j && calls[i].Unreadable? &&
        (forall m :: 0 <= m < i ==> calls[m].Call?) &&
        r.answer == ToolStepErrorText(calls[i].error)
  {
    var r := GenerateResponse(gen, model, query, history, tools, Some(manager), parse, maxRounds);
    var reply := model(k, r.requests[k]).reply;
    assert reply.toolCalls[j] in reply.toolCalls;
    if k < |r.requests| - 1 {
      ChainLink(gen, model, Some(manager), parse, maxRounds, 0, r.requests, k);
      assert false;
    }
    var step := ExecuteToolsAndUpdate(reply, r.requests[k].messages, manager, parse);
    assert step.Failure?;
  }

  /** The model asks for readable tool calls in every round below the cap. */
  ghost predicate AlwaysWantsTools(model: Oracle, maxRounds: int)
  {
    forall i: nat, req :: i < maxRounds ==>
      model(i, req).Replied? &&
      model(i, req).reply.finishReason == ToolCallsReason &&
      |model(i, req).reply.toolCalls| > 0 &&
      forall c :: c in model(i, req).reply.toolCalls ==> c.Call?
  }

  /** A chained run, decided by its last call and within the round cap,
      against a model that keeps asking for tools reaches the cap. */
  lemma ToolHungryRunReachesCap(gen: AIGenerator, model: Oracle, manager: ToolManager, parse: ArgParser,
                                maxRounds: int, round: nat, r: Run)
    requires AlwaysWantsTools(model, maxRounds)
    requires round <= maxRounds
    requires 1 <= |r.requests| <= RoundsLeft(round, maxRounds) + 1
    requires LastCallDecides(model, Some(manager), parse, maxRounds, round, r)
    ensures |r.requests| == maxRounds - round + 1 && r.toolRounds == maxRounds - round
    ensures var last := r.requests[|r.requests| - 1];
      r.answer == match model(maxRounds, last)
        case ApiFailure(e) => ApiErrorText(e)
        case Replied(reply) => reply.content
  {
  }

  /** A query against a model that keeps asking for tools makes exactly
      `maxRounds` tool rounds and `maxRounds + 1` model calls, and returns
      the outcome of the last call, made without tools. */
  lemma ToolHungryQueryReachesCap(gen: AIGenerator, model: Oracle, query: string, history: Option<string>,
                                  tools: seq<ToolSchema>, manager: ToolManager, parse: ArgParser, maxRounds: int)
    requires AlwaysWantsTools(model, maxRounds)
    requires 0 <= maxRounds
    ensures var r := GenerateResponse(gen, model, query, history, tools, Some(manager), parse, maxRounds);
      var last := r.requests[|r.requests| - 1];
      |r.requests| == maxRounds + 1 && r.toolRounds == maxRounds &&
      (maxRounds > 0 ==> !OffersTools(last)) &&
      r.answer == match model(maxRounds, last)
        case ApiFailure(e) => ApiErrorText(e)
        case Replied(reply) => reply.content
  {
  }

  /** With every call clean, the legacy handler's tool messages are the
      loop's tool messages. */
  lemma {:induction false} CleanCallsGiveSameResults(calls: seq<ToolCall>, manager: ToolManager, parse: ArgParser)
    requires forall c :: c in calls ==> Clean(c, manager, parse)
    ensures LegacyToolResults(calls, manager, parse) == ToolResults(calls, manager, parse)
    decreases |calls|
  {
    if |calls| > 0 {
      assert calls[0] in calls;
      assert forall c :: c in calls[1..] ==> c in calls;
      CleanCallsGiveSameResults(calls[1..], manager, parse);
    }
  }

  /** For clean calls the legacy handler sends exactly the request the loop
      would send in round 1 after the same tool round, and returns the reply
      to it. */
  lemma LegacyAgreesWithLoop(gen: AIGenerator, client: Request -> ModelOutcome, reply: Reply,
                             messages: seq<Message>, manager: ToolManager, parse: ArgParser)
    requires forall c :: c in reply.toolCalls ==> Clean(c, manager, parse)
    ensures ExecuteToolsAndUpdate(reply, messages, manager, parse).Success?
    ensures var next := BuildApiParams(gen, ExecuteToolsAndUpdate(reply, messages, manager, parse).value, [], 1);
      HandleToolExecution(gen, client, reply, messages, manager, parse) ==
        match client(next)
        case ApiFailure(e) => Failure(e)
        case Replied(final) => Success(Exchange(final.content, next))
  {
    CleanCallsGiveSameResults(reply.toolCalls, manager, parse);
  }

  /** Where a call's arguments do not decode or its dispatch raises, the
      legacy handler raises, while the loop's tool step still completes with
      the failure text in that call's tool message. */
  lemma LegacyRaisesWhereLoopRecovers(gen: AIGenerator, client: Request -> ModelOutcome, reply: Reply,
                                      messages: seq<Message>, manager: ToolManager, parse: ArgParser, j: nat)
    requires forall c :: c in reply.toolCalls ==> c.Call?
    requires j < |reply.toolCalls| && !Clean(reply.toolCalls[j], manager, parse)
    ensures HandleToolExecution(gen, client, reply, messages, manager, parse).Failure?
    ensures var step := ExecuteToolsAndUpdate(reply, messages, manager, parse);
      var call := reply.toolCalls[j];
      step.Success? &&
      step.value[|messages| + 1 + j].content == ToolFailureText(call.name,
        if parse(call.arguments).Failure? then parse(call.arguments).error
        else manager.execute(call.name, parse(call.arguments).value).error)
  {
  }
}
