# Conversation-orchestration loop of the course-materials chatbot

This project is a Dafny model of `AIGenerator`, the part of the chatbot's
backend that answers one query with a tool-calling chat-completion model.
The model covers:

- the initial transcript: a system message, with the rendered conversation
  history appended when there is any, then the user's query;
- the request parameters of each round. These are a fixed model name,
  temperature 0 and 800 max tokens. Tool schemas and `tool_choice="auto"`
  are added only in round 0;
- the four-way termination test, run before any tool work;
- the tool step. It appends one assistant message, then one tool message per
  requested call, in call order. A single failing tool becomes an error text;
- the recursive round function with its bound of `max_rounds` tool rounds;
- the legacy one-round handler `_handle_tool_execution`.

The modelled failures never raise out of a query. A model-call failure returns
`"API调用错误: <msg>"`. A failure escaping the tool step returns
`"工具执行错误: <msg>"`. A single tool's failure becomes the tool message
`"工具执行失败: <name> - <msg>"` and the round goes on.

Modules:

- `wrappers.dfy` (`Wrappers`): `Option` and `Result`. `Failure` carries the
  text of a raised exception.
- `messages.dfy` (`Messages`): tool calls, transcript messages, replies,
  requests, the model oracle, the argument decoder and the tool manager. It
  also defines `ToolBlocks`, the shape that tool rounds leave in a
  transcript.
- `generator.dfy` (`Generator`): the operations of `backend/ai_generator.py`.
- `properties.dfy` (`Properties`): lemmas about whole queries.

Collaborators become parameters:

- The chat-completion client is an `Oracle`, a function from the round index
  and the request to a reply or an exception text. The loop makes one call
  per round, so the round index is also the number of earlier calls.
- The tool manager is `Option<ToolManager>`. `None` means no manager was
  passed. Its `execute_tool` is a pure function from a name and keyword
  arguments to a result text or an exception text.
- `_parse_tool_args` is an abstract decoder from the argument string to
  keyword arguments, or to the text of the decoding error.

A run of the loop is a `Run`: the returned text, every request sent to the
model in order, and the number of tool steps entered. `ExecuteRound`
characterises its runs in three ways:

- The run is *chained*: every request except the last led to a successful tool
  step, and the next request is the one built from that step's transcript.
- The run is *decided by its last call*: that call raised, or it terminated
  the loop, or its tool step raised.
- The run respects the round bound.

The lemmas in `Properties` are proved from this characterisation.

Three facts about the code shape the model:

- A query makes at most `max(max_rounds, 0) + 1` model calls: one per tool
  round, plus a final call. The last call offers no tools once a tool round
  has run. With `max_rounds <= 0` the single call still offers the tool
  schemas, and no tool ever runs.
- Two kinds of failure end a query early: a model call that raises, and an
  exception escaping the tool step. Each has its own answer text.
- The rounds are recursive calls, not an explicit loop. `ExecuteRound`
  recurses the same way, with `max_rounds - round` as its termination measure.

## Model

| member | source | states |
|---|---|---|
| Generator.InitialMessages | backend/ai_generator.py:159-181 | the transcript is exactly a system message and `User(query)`; the system content starts with the prompt, is the prompt alone iff the history is `None` or empty, and otherwise continues with the header `"\n\nPrevious conversation:\n"` and the history |
| Properties.HistoryRoundTrip | backend/ai_generator.py:172-176 | the history can be read back out of the system message: nothing when absent or empty, the history itself otherwise |
| Generator.BuildApiParams | backend/ai_generator.py:197-204 | every request has the base parameters (model, temperature 0, 800 max tokens) and the given messages; tools are offered iff the round is 0 and the schema list is non-empty, and then they are exactly the given schemas with `tool_choice` "auto"; `tools` and `tool_choice` are present together or not at all |
| Generator.ShouldTerminate | backend/ai_generator.py:218-249 | the loop continues iff the round is below the cap, the finish reason is "tool_calls", a tool manager exists and at least one call was requested |
| Generator.ExecuteSingleTool | backend/ai_generator.py:287-307 | a call raises out of the single-tool step iff it is unreadable; a decoding failure or a dispatch exception becomes `"工具执行失败: <name> - <msg>"`, and otherwise the result is the dispatcher's text |
| Generator.ToolResults | backend/ai_generator.py:276-283 | the tool step succeeds iff every call is readable; it then yields one tool message per call, in call order, tagged with that call's id and holding that call's result; otherwise it fails with the error of the first unreadable call |
| Generator.ExecuteToolsAndUpdate | backend/ai_generator.py:251-285 | the new transcript keeps the old one as its prefix, grows by 1 + k, has the assistant message with content and calls at the old length, and then the answers to the calls in order, each tagged with its call's id and holding that call's single-tool result; these together form one whole tool round; the step fails iff some call is unreadable, with the error of the first unreadable call |
| Generator.ExecuteRound | backend/ai_generator.py:112-157 | a run sends between 1 and (rounds left + 1) requests and enters at most (rounds left) tool steps; its first request is this round's parameters; each later request follows a round that continued and had a successful tool step; the last call decides the answer (its API error text, its content on termination, or the escaping tool-step error text) |
| Generator.ChainLink | backend/ai_generator.py:147-157 | in a chained run, request i continued into request i+1 in round `round + i` |
| Generator.LaterRoundsOfferNoTools | backend/ai_generator.py:155-157 | in a chained run no request after the first offers tools or `tool_choice` |
| Generator.GenerateResponse | backend/ai_generator.py:85-110 | a query makes at most `max(max_rounds, 0) + 1` model calls and at most `max(max_rounds, 0)` tool rounds; its first request is round 0's parameters for the initial transcript: base parameters, and exactly the given schemas with `tool_choice` "auto" iff there are schemas; no later request offers tools |
| Messages.ToolBlocksAppend | backend/ai_generator.py:266-283 | transcripts made of whole tool rounds stay so when concatenated |
| Messages.ToolResultFollowsItsCall | backend/ai_generator.py:266-283 | in such a transcript every tool message answers a call made by an earlier assistant message |
| Properties.ChainedTranscripts | backend/ai_generator.py:147-157 | along a chained run each request's transcript extends the first one by whole tool rounds only |
| Properties.GeneratedTranscriptsWellFormed | backend/ai_generator.py:106-110 | every request of a query carries a transcript that starts with the initial messages and continues with whole tool rounds only |
| Properties.TerminationRunsNoTools | backend/ai_generator.py:142-144 | when the round's reply terminates the loop, exactly one model call is made, no tool step runs, and the reply's content is returned |
| Properties.ApiFailureEndsRun | backend/ai_generator.py:136-140 | in a chained run decided by its last call, a call that raised is the last one, after k tool rounds, and its error text is the answer |
| Properties.ApiFailureEndsQuery | backend/ai_generator.py:136-140 | a model call that raises in any round k of a query is its last call; the query returns `"API调用错误: <msg>"` after k tool rounds |
| Properties.ToolStepFailureEndsRound | backend/ai_generator.py:146-152 | when a continuing round's calls include an unreadable one, the run makes no further call, enters one tool step and returns `"工具执行错误: <msg>"` with the error of the first unreadable call |
| Properties.ToolStepFailureEndsQuery | backend/ai_generator.py:146-152 | when round k of a query continues and its calls include an unreadable one, that round's call is the query's last, after k + 1 tool steps, and the query returns `"工具执行错误: <msg>"` with the error of the round's first unreadable call |
| Properties.ToolHungryRunReachesCap | backend/ai_generator.py:143-157 | against a model that always asks for readable tools below the cap, a run within the bound and decided by its last call has exactly (rounds left) tool rounds and (rounds left + 1) calls and returns the outcome of the call at the cap |
| Properties.ToolHungryQueryReachesCap | backend/tests/test_ai_generator.py:387-422 | a query against a model that always asks for tools makes exactly `max_rounds` tool rounds and `max_rounds + 1` calls; when `max_rounds > 0` the last call offers no tools; the last call's outcome is the answer |
| Generator.LegacyToolResults | backend/ai_generator.py:352-373 | the legacy tool messages exist iff every call is readable, decodes and dispatches without raising; they then answer the calls one for one in order, each holding its call's dispatcher text; otherwise the error is the one raised by the first call that is not clean (its read, decoding or dispatch error) |
| Generator.HandleToolExecution | backend/ai_generator.py:327-383 | the legacy handler raises the error of the first call that is not clean when there is one; on success it sends one request with the base parameters and no tools, whose transcript is the given one plus the assistant message plus, in call order, one tool message per call holding its dispatcher text, and returns that request's reply content |
| Properties.CleanCallsGiveSameResults | backend/ai_generator.py:352-370 | when every call is clean, the legacy tool messages equal the loop's |
| Properties.LegacyAgreesWithLoop | backend/ai_generator.py:341-383 | for clean calls the legacy handler sends exactly the request the loop sends in round 1 after the same tool round, and returns that call's content or raises its error |
| Properties.LegacyRaisesWhereLoopRecovers | backend/ai_generator.py:298-307 | for readable calls with one that fails to decode or dispatch, the legacy handler raises, while the loop's tool step completes and puts that call's failure text in its tool message |

## Left out

- `_make_api_call` and the `ZhipuAiClient` client are network calls. They are replaced by the `Oracle` parameter.
- The `eval` fallback of `_parse_tool_args` and of the legacy handler evaluates arbitrary code. Decoding, including its fallback, is the abstract `ArgParser`. A decoding failure maps to the single-tool failure text in the loop and to a raised error in the legacy handler.
- The `SYSTEM_PROMPT` text is an opaque constant. It is the `systemPrompt` field of `AIGenerator`.
- A reply's content being `None` is not modelled: content is a `string`. `tools=None` and `tools=[]` are both falsy and are both the empty sequence. `tool_calls=None` and `[]` are both the empty sequence. So the legacy handler's error on `tool_calls=None` is not modelled.
- Replies without a first choice are not modelled. Neither are failures raised while reading `finish_reason` or `content`. Where the source reads these outside any `try` (the termination test, and the returned content at `backend/ai_generator.py:144`), such a failure would propagate out of `generate_response`. Where the round continues, `content` is first read inside the tool step's `try` (`backend/ai_generator.py:271`), so such a failure would become `"工具执行错误: <msg>"`.
- A tool call whose `function` is readable but whose `id` is not is not modelled. A call is either fully readable (`Call`) or not at all (`Unreadable`).
- Decoded keyword arguments are narrowed to a map from names to strings, integers and booleans (`ArgValue`). Floats, lists, `None` and nested dicts are not represented. The arguments only pass from the abstract decoder to the abstract tool manager, so no contract depends on their shape.
- The tool manager is a pure function. Its side effects are not tracked: source recording, and results that depend on earlier dispatches. The `execute_tool` of the registry is not part of this model.
- The default `max_rounds = 2` of `generate_response` is not a separate member. `GenerateResponse` takes the cap as an argument.
- The legacy handler reads only `messages` from the `base_params` it is given. The other request parameters come from the instance. The model takes the transcript directly.
- Generator.HandleToolExecution: when every call is clean but the follow-up call raises, its contract only says that some request with the base parameters and no tools raised that error. `Properties.LegacyAgreesWithLoop` names the exact request.
- `backend/config.py`, the scripts, the HTTP layer, the tool registry, the search and outline tools, the vector store and the session history are not part of this model. They are constants, I/O, or code whose implementation is not shown.
