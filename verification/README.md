# godmode backend: the agent and its websocket protocol, in Dafny

This project models the Python backend of godmode, a desktop assistant. An
Electron client talks to the backend over a websocket. The backend keeps a
chat agent per connection, streams the LLM's answer back as `chunk` frames,
and routes the LLM's tool calls: server tools (web search, memory) run in
the backend, client tools (bash, file reading and editing, paste) go to the
client and their results come back as `tool_result` frames, and `ask_user`
and `terminate` end the turn.

What is modelled:

- **The agent step** (`backend/core/agent/agent.py`).
  - `ChatAgent.step` is an async generator that yields text, tool-call
    requests, error dicts and a final cost tuple, and appends messages to
    the agent's memory.
  - The step is specified as a *trace*, `AgentStream.StepTrace`: a sequence
    of `Emit(item)` and `Remember(message)` events in the order the
    generator performs them.
  - `Agent.ChatAgent.Step` is the imperative loop (a class with `memory`,
    `modelName` and `pendingAskId` fields). It is proved to yield and
    append exactly that trace.
  - Lemmas prove what the trace promises:
    - the deltas come first;
    - an Ollama model holds text back once it looks like JSON;
    - tool-call fragments are accumulated per index;
    - only valid calls are requested;
    - at most one event halts the relaying;
    - the cost is always last.
- **The LLM client** (`backend/services/llm.py`): the request built for a
  model and the session keys, and the items the client yields: every chunk,
  then at most one error dict, then always one cost tuple.
- **The websocket handler** (`backend/app/websocket/handler.py`).
  `run_agent_step_and_send` consumes the step lazily. When the handler
  returns early, whatever the step would still have appended never happens.
  So the handler replays the trace event by event:
  - text becomes `chunk` frames;
  - tool calls are sorted up to the first `ask_user` or `terminate`;
  - server tools run and leave tool messages;
  - client calls go out in one frame, and their results are awaited;
  - a denial or a server call runs the next step recursively.
- **The current server** (`backend/app/main.py`): the `chat_id` validation, the
  connection state (cost, API keys, stop flag), one branch per frame type,
  and the clean-up of `ACTIVE_CONNECTIONS` and the pending-question table.
- **The older server and agent** (`backend/main.py`, `backend/agent.py`):
  the same shape, one tool call at a time. The step runs to its end before
  its events are relayed.
- **Tools** (`backend/core/tools/base.py`, `backend/core/tools/web_tools.py`):
  - the registry and the handler's routing categories;
  - the text clean-up and truncation of `fetch_url_content`;
  - the report of `perform_web_search`;
  - the question table of the browser tool's `ask_human`.

Some behaviour of the source that the model makes explicit:

- The chat title (`backend/app/main.py:172-178`) is never written. The
  agent's memory always starts with its system message, so it is never
  empty (`Server.HandleFrame` returns `titled == None`).
- The stop flag is raised and lowered within the same frame
  (`backend/app/main.py:361-371`). No step ever sees it set.
- The handler's cost stays `None` until the step's very last event
  (`Handler.CostCaptured`). A turn that ends at an error dict, an
  `ask_user` or a `terminate` therefore never reports the step's cost.

## Model

| member | source | states |
|---|---|---|
| Protocol.NewMessage | backend/core/agent/agent.py:111-128 | the stored message has the given role; content, tool calls and tool call id are present exactly when given; a tool result given without content gets "" |
| Protocol.ShapedStored | backend/core/agent/agent.py:111-128 | passing a stored message's own fields to `add_message_to_memory` rebuilds that very message |
| Protocol.UpToFrame | backend/core/agent/agent.py:131-364 | events that come later do not change what earlier events yielded or appended |
| Protocol.UpToAppend | backend/core/agent/agent.py:131-364 | what a prefix of two runs one after the other yields and appends is the first run's yields and appends, then the second run's prefix's |
| Protocol.EventSnoc | backend/core/agent/agent.py:131-364 | one more event adds its item to what is yielded or its message to what is appended, never both |
| Protocol.EmittedAppend | backend/core/agent/agent.py:131-364 | the yields and appends of two runs one after the other are the concatenations of each run's |
| Protocol.YieldOnly | backend/core/agent/agent.py:131-364 | a single yield appends nothing to memory and yields exactly its item |
| Protocol.Regrouped | backend/core/agent/agent.py:246-361 | in a run of yields, then the decision, then a final yield, only the decision reaches memory |
| ToolRegistry.CategoryOf | backend/app/websocket/handler.py:55-79 | a name is a server tool iff it is in `SERVER_EXECUTABLE_TOOLS`; otherwise a client tool iff it is one of the four client names; `ask_user` and `terminate` get their own categories; the rest are unknown |
| ToolRegistry.SchemasDistinct | backend/core/tools/base.py:75-86 | nine schemas are offered, each under its own name; `browser_user` is neither offered nor run |
| ToolRegistry.ServerToolsOffered | backend/core/tools/base.py:66-86 | every tool the server can run is offered to the model as a schema |
| ToolRegistry.SchemasRouted | backend/core/tools/base.py:66-86 | every offered name lands in a known handler category; the server category is exactly the server registry; every client tool is offered |
| ToolRegistry.TavilyClientFor | backend/core/tools/base.py:48-53 | there is a search client iff `TAVILY_API_KEY` is set and non-empty, and it carries that key |
| Llm.SessionApiKey | backend/services/llm.py:32-40 | no keys give no key; otherwise the first matching rule picks the OpenAI, Anthropic or Groq key, and a key found always comes from one of those three |
| Llm.ProviderName | backend/services/llm.py:50 | the provider is the longest prefix of the model name without '/', followed by '/' or the end of the name |
| Llm.ApiBase | backend/services/llm.py:53-56 | an API base is set iff the model starts with "ollama/", and it is the local Ollama server |
| Llm.BuildRequest | backend/services/llm.py:21-29 | the request carries the model, the messages and temperature 0.7; `max_tokens` only when given and non-zero; the Ollama API base and the session key |
| Llm.ResponseItems | backend/services/llm.py:78-136 | every provider chunk is passed on unchanged and in order; there is an error dict iff the provider raised, right before the end; the last item, and only the last, is the cost tuple, which is 0.0 after a failure |
| Llm.GetLlmResponseStream | backend/services/llm.py:13-136 | the generator yields exactly `ResponseItems` of what the provider does with the built request |
| ToolAccumulator.AddAllAppend | backend/core/agent/agent.py:219-236 | merging two runs of fragments one after the other is merging their concatenation |
| ToolAccumulator.MergeFragments | backend/core/agent/agent.py:219-236 | the inner loop over one delta's fragments merges them in order, as `AddAll` does |
| ToolAccumulator.OfIndex | backend/core/agent/agent.py:219-236 | the fragments gathered for an index all carry that index |
| ToolAccumulator.FirstPos | backend/core/agent/agent.py:222-227 | the position found holds a fragment with that index, and no earlier position does |
| ToolAccumulator.OfIndexSnoc | backend/core/agent/agent.py:219-236 | one more fragment extends only its own index's list |
| ToolAccumulator.FirstNameSnoc | backend/core/agent/agent.py:234-236 | a later name is taken only while no name has been seen |
| ToolAccumulator.ConcatArgsSnoc | backend/core/agent/agent.py:230-232 | a later fragment's arguments are appended to the text |
| ToolAccumulator.FirstPosSnoc | backend/core/agent/agent.py:222-227 | a fragment appended later does not move where an index first appears |
| ToolAccumulator.AccumulatedKeys | backend/core/agent/agent.py:219-227 | the accumulator's keys are exactly the indices that occur in the fragments |
| ToolAccumulator.ValueAfter | backend/core/agent/agent.py:219-236 | merging one more fragment keeps every index's call equal to its reference call |
| ToolAccumulator.ValueExtended | backend/core/agent/agent.py:229-236 | a later fragment of an index turns its reference call into the extended call |
| ToolAccumulator.ValueOpened | backend/core/agent/agent.py:222-227 | the first fragment of an index opens exactly its reference call |
| ToolAccumulator.AccumulatedValues | backend/core/agent/agent.py:219-236 | each index's call is its reference: the first fragment's id, the first non-empty name, all argument texts in order |
| ToolAccumulator.OrderAfter | backend/core/agent/agent.py:219-227 | one more fragment keeps the order listing indices by first appearance |
| ToolAccumulator.OrderAppended | backend/core/agent/agent.py:222-227 | an index first seen after all listed ones goes to the end of the order |
| ToolAccumulator.AccumulatedOrder | backend/core/agent/agent.py:249 | `values()` lists the calls in order of each index's first appearance |
| ToolAccumulator.Accumulated | backend/core/agent/agent.py:219-249 | the accumulator is well formed, has exactly the indices that occurred, holds each index's reference call, and lists them by first appearance |
| AgentStream.HaltFrom | backend/core/agent/agent.py:159-177 | the loop, from item `k` on, is left at the first item with the stop flag or an error dict, or at the end |
| AgentStream.Halt | backend/core/agent/agent.py:159-177 | where the loop is left: no earlier item is stopped or an error dict, and the item there, if any, is one |
| AgentStream.TextEvents | backend/core/agent/agent.py:195-212 | streaming the first `k` deltas gives exactly one event per delta |
| AgentStream.ValidCallsFilter | backend/core/agent/agent.py:251-255 | a call is kept iff it is among the calls and passes the validity test; never more calls than given |
| AgentStream.Reinterpret | backend/core/agent/agent.py:283-312 | the response is read as a tool call iff it is non-empty and its stripped text parses to an object with a non-empty name and dict arguments; the call carries that name, the arguments serialised again and an id starting with "tool_<name>_", and always passes the validity test |
| AgentStream.ShownCount | backend/core/agent/agent.py:195-212 | never more deltas are yielded than were received |
| AgentStream.LooksJsonByStrip | backend/core/agent/agent.py:203 | "looks like JSON" agrees with `strip().startswith("{")` |
| AgentStream.LooksJsonLStrip | backend/core/agent/agent.py:203 | "looks like JSON" agrees with `lstrip()` followed by a look at the first character |
| AgentStream.LooksJsonExtend | backend/core/agent/agent.py:199-204 | once the buffer looks like JSON it stays so; once it holds a non-space other than '{' it never will |
| AgentStream.ShownAtMost | backend/core/agent/agent.py:199-210 | an Ollama step yields at most the deltas received |
| AgentStream.ConcatFrame | backend/core/agent/agent.py:195-196 | deltas arriving later do not change the text collected before |
| AgentStream.ShownFrame | backend/core/agent/agent.py:199-210 | deltas arriving later do not change how many earlier ones were yielded |
| AgentStream.TextEventsFrame | backend/core/agent/agent.py:195-212 | deltas arriving later do not change the earlier text events |
| AgentStream.LooksJsonStays | backend/core/agent/agent.py:203-204 | once the text looks like JSON, more deltas keep it so |
| AgentStream.ShownExactly | backend/core/agent/agent.py:199-210 | an Ollama step yields delta `j` iff the text up to and including it does not look like JSON |
| AgentStream.ShownBlank | backend/core/agent/agent.py:199-210 | when an Ollama step stops yielding, what it yielded is blank, and the next delta made the text look like JSON |
| AgentStream.BlankBeforeJson | backend/core/agent/agent.py:203 | text that does not look like JSON but does once more is appended is blank |
| AgentStream.OllamaDelta | backend/core/agent/agent.py:195-210 | one more delta for an Ollama model extends the text and the buffer, sets the JSON flag as `strip().startswith("{")` says, and is yielded iff the flag is still clear |
| AgentStream.PlainDelta | backend/core/agent/agent.py:211-212 | one more delta for any other model extends the text and is yielded |
| AgentStream.ItemReceived | backend/core/agent/agent.py:186-236 | one more consumed item extends the deltas, fragments, finish reason and cost as that item says |
| AgentStream.TraceAssembled | backend/core/agent/agent.py:131-364 | the deltas shown, the error dict that stopped the loop if any, the decision (none after an error dict) and the last cost make up the whole trace; only the decision appends |
| AgentStream.LiveStep | backend/core/agent/agent.py:159-177 | an item that is neither stopped nor an error dict keeps the loop going |
| AgentStream.HaltAt | backend/core/agent/agent.py:159-177 | the loop stops at the end or at the first stopped item or error dict |
| AgentStream.HaltFromAt | backend/core/agent/agent.py:159-177 | searching from any live point finds the same place |
| AgentStream.TextEventsRemember | backend/core/agent/agent.py:195-212 | streaming appends nothing to memory |
| AgentStream.TextEventsYield | backend/core/agent/agent.py:195-212 | streaming yields the deltas as text, in order |
| AgentTrace.TextEventsAt | backend/core/agent/agent.py:195-212 | the streaming events are the deltas, each yielded as text, in order |
| AgentTrace.StopPlain | backend/core/agent/agent.py:280-344 | the stop branch yields no cost tuple, and every message it appends is stored as built |
| AgentTrace.FinishPlain | backend/core/agent/agent.py:246-356 | the decision yields no cost tuple, and every message it appends is stored as built |
| AgentTrace.StopQuiet | backend/core/agent/agent.py:280-344 | the stop branch halts at most once, and only appends after that |
| AgentTrace.FinishQuiet | backend/core/agent/agent.py:246-356 | the decision halts at most once, and only appends after that |
| AgentTrace.TraceParts | backend/core/agent/agent.py:131-364 | a step trace is the streamed deltas, then the error dict or the decision, then the cost |
| AgentTrace.StepTraceShaped | backend/core/agent/agent.py:246-356 | every message a step appends is stored exactly as built |
| AgentTrace.StepQuiet | backend/core/agent/agent.py:246-361 | a step halts at most once: after its error dict or request come only appends and the cost |
| AgentTrace.CostIsLast | backend/core/agent/agent.py:157-169 | only the last event can be a cost tuple; it is one iff a cost was received, and it carries the last cost received |
| AgentTrace.ErrorHaltTrace | backend/core/agent/agent.py:172-177 | an error dict from the stream is yielded exactly once, right after the deltas before it, and nothing is appended |
| AgentTrace.ErrorBetween | backend/core/agent/agent.py:172-177 | deltas, one error dict, then at most the cost: the dict is the only error dict, and nothing is appended |
| AgentTrace.ToolCallsDecision | backend/core/agent/agent.py:247-278 | with a valid call, exactly the valid calls in order are appended as one assistant message and then yielded as one request; otherwise an error text is appended and one error dict yielded |
| AgentTrace.StopDecision | backend/core/agent/agent.py:280-344 | a response read as a tool call is appended and requested with one call; otherwise a held-back Ollama buffer is yielded; in every case the text (or a message without content) is appended last |
| AgentTrace.OtherDecision | backend/core/agent/agent.py:345-354 | any other finish reason appends the partial text with its marker (or an error text) and yields one error dict naming the reason |
| AgentTrace.StreamedFirst | backend/core/agent/agent.py:195-212 | the streamed deltas come first and in order; for any model but an Ollama one, every non-empty delta received |
| Agent.ChatAgent.constructor | backend/core/agent/agent.py:36-105 | a new agent has the given model, a memory of just the system message, and no pending `ask_user` id |
| Agent.ChatAgent.SetModel | backend/core/agent/agent.py:108-109 | only the model changes |
| Agent.ChatAgent.AddMessageToMemory | backend/core/agent/agent.py:111-128 | exactly one message, built by `NewMessage`, is appended, and nothing else changes |
| Agent.ChatAgent.Step | backend/core/agent/agent.py:131-364 | the step yields exactly `StepTrace` over the stream the provider returns for the current model and memory, and memory grows by exactly its `Remember` messages |
| Agent.ChatAgent.Finalize | backend/core/agent/agent.py:245-356 | the decision after the loop is the finish-reason table `Finish`, and memory grows by its messages |
| Agent.ChatAgent.FinishToolCalls | backend/core/agent/agent.py:247-278 | the tool-call branch produces `ToolCallsOutcome` and appends its messages |
| Agent.ChatAgent.FinishStop | backend/core/agent/agent.py:280-344 | the stop branch produces `StopOutcome` and appends its messages |
| Agent.ChatAgent.StopWith | backend/core/agent/agent.py:317-344 | once the response is read as `call`, the branch produces `StopEvents` and appends its messages |
| Agent.ChatAgent.FinishOther | backend/core/agent/agent.py:345-354 | any other reason produces `OtherOutcome` and appends its messages |
| Agent.ReadStream | backend/core/agent/agent.py:159-236 | the loop stops at `Halt`; it collects the concatenated deltas, the Ollama buffer and JSON flag, the last truthy finish reason, the last cost and the accumulated fragments; it yields the shown deltas and the error dict that stopped it |
| Agent.ReadItem | backend/core/agent/agent.py:165-236 | one live item keeps the loop's invariant `StreamSoFar` |
| Channel.Socket.constructor | backend/app/main.py:46 | an accepted connection has sent nothing, holds the client's frames to come, and is open |
| Channel.Socket.Send | backend/app/websocket/handler.py:39 | exactly one frame is appended to what was sent |
| Channel.Socket.Receive | backend/app/websocket/handler.py:129-130 | the next frame, removed from what is to come, or none when the client is gone |
| Channel.Socket.Close | backend/app/main.py:54 | the connection is closed with the given code; nothing else changes |
| Common.LStrip | backend/core/agent/agent.py:203 | `lstrip` leaves a suffix that is empty or starts with a non-space |
| Common.LStripBlank | backend/core/agent/agent.py:203 | what `lstrip` removes is whitespace |
| Common.BlankIffLStripEmpty | backend/core/agent/agent.py:203 | a string is blank iff `lstrip` leaves nothing |
| Common.LStripAppend | backend/core/agent/agent.py:196-203 | text appended after a non-blank string survives `lstrip` untouched |
| Common.RStrip | backend/core/tools/web_tools.py:36 | `rstrip` leaves a prefix that is empty or ends with a non-space |
| Common.RStripBlank | backend/core/tools/web_tools.py:36 | what `rstrip` removes is whitespace |
| Common.RStripKeepsHead | backend/core/tools/web_tools.py:36 | `rstrip` keeps a first character that is not whitespace |
| Common.Strip | backend/core/tools/web_tools.py:36-37 | `strip` gives an infix with no whitespace at either end |
| Common.StripHead | backend/core/tools/web_tools.py:36-37 | `strip` starts where `lstrip` does |
| Common.StripInfix | backend/core/tools/web_tools.py:36-37 | what `strip` removes is whitespace at either end and nothing else |
| Common.TakeWord | backend/core/tools/web_tools.py:41 | the longest prefix without whitespace |
| Common.WordsAreWords | backend/core/tools/web_tools.py:41 | every piece `split()` returns is non-empty and has no whitespace |
| Common.WordsAround | backend/core/tools/web_tools.py:41 | a whitespace character splits `split()`'s result: the words on its left, then those on its right |
| Common.WordsAroundBlank | backend/core/tools/web_tools.py:41 | a run of whitespace splits `split()`'s result like one whitespace character |
| Common.WordsOfStrip | backend/core/tools/web_tools.py:36-37 | `strip()` keeps every word, in order |
| Common.WordsOfJoinBlank | backend/core/tools/web_tools.py:38 | joining at whitespace gives exactly the parts' words, in order |
| Common.JoinSplitOn | backend/core/tools/web_tools.py:37 | joining the parts of `split(sep)` with `sep` gives the string back |
| Common.WordsOfSplitLines | backend/core/tools/web_tools.py:36 | the lines hold exactly the text's words, in order |
| Common.SplitOn | backend/core/tools/web_tools.py:37 | `split(sep)` gives at least one part, and the first part is a prefix of the string |
| Common.SplitLines | backend/core/tools/web_tools.py:36 | no line contains a line break; its non-empty lines are those of `splitlines()` (it counts "\r\n" as two breaks and keeps a final empty line, which only adds empty lines) |
| Common.NatToString | backend/core/agent/agent.py:294 | the decimal digits of a number: non-empty, digits only |
| Common.ContainsAt | backend/app/websocket/handler.py:145 | a substring found at a position is contained |
| Common.ContainsWitness | backend/app/websocket/handler.py:145 | a contained substring occurs at some position |
| ToolRouting.Stopper | backend/app/websocket/handler.py:55-76 | sorting stops at the first `ask_user` or `terminate` call, or the end |
| ToolRouting.RouteSorts | backend/app/websocket/handler.py:55-79 | sorting partitions the calls by category: the server list holds exactly the server-tool calls, the client list exactly the client-tool calls, the pending table exactly the client calls' ids; unknown names are dropped |
| ToolRouting.ServerMessagesMatch | backend/app/websocket/handler.py:82-117 | each server call leaves exactly one tool message, with its id and its result or the error text |
| ToolRouting.ToolMessagesSnoc | backend/app/websocket/handler.py:134-143 | one more recorded result adds its tool message |
| ToolRouting.AbsorbStepAccounted | backend/app/websocket/handler.py:134-143 | one result entry keeps every pending id either pending or recorded, never both, and never recorded twice |
| ToolRouting.AbsorbAccounted | backend/app/websocket/handler.py:134-150 | a whole `tool_result` frame keeps that bookkeeping |
| ToolRouting.WaitAccounted | backend/app/websocket/handler.py:127-153 | the whole wait keeps that bookkeeping |
| ToolRouting.RecordedAtMostOnce | backend/app/websocket/handler.py:127-153 | each pending id is recorded at most once; only pending ids are recorded; a wait with no denial and no break records every pending call |
| Handler.FirstHalt | backend/app/websocket/handler.py:32-47 | relaying stops at the first error dict or request, or at the end |
| Handler.ProcessingErrorOf | backend/app/websocket/handler.py:183-187 | the frame sent for an escaping exception is a processing error |
| Handler.CostCaptured | backend/app/websocket/handler.py:33-36 | the cost held is `None` before the step's last event, and after it the last cost the stream delivered |
| Handler.CostNoneBefore | backend/app/websocket/handler.py:33-36 | with no cost tuple before the last event, none is held before it |
| Handler.RememberedFromStart | backend/app/websocket/handler.py:32 | relaying from the start appends what the step's events append |
| Handler.RunAgentStepAndSend | backend/app/websocket/handler.py:19-190 | with no recursion left, one processing error frame; otherwise the step's trace is relayed (`Relayed`): chunks and messages up to the first halting event, then `end` with the last cost, or the error frame, or what the request leads to: a stopping call's one frame (or the processing error when its arguments do not parse) with its `ask_user` id stored, or the server messages, the client frame and the recorded results, followed, when the handler goes on, by the rest of the step and `end`; the frames sent always end the turn properly |
| Handler.Relay | backend/app/websocket/handler.py:32-178 | chunks and messages before the first halting event; then `end` and the last cost when there is none; the error frame and no cost for an error dict or an empty request; for any other request, its stopping call's frame and stored id (`StopRelayed`), or its served calls and, when the handler goes on, the rest of the step and `end` (`ServedThenRest`) |
| Handler.RelayRequest | backend/app/websocket/handler.py:41-165 | an empty request sends the no-tools error and changes nothing else; a stopping call sends its one frame (or the processing error) and ends the turn with the cost held; otherwise the calls are served, and when the handler goes on the rest of the step's chunks and messages and `end` follow, with the last cost among them |
| Handler.RelayRest | backend/app/websocket/handler.py:163-175 | the rest of the step's chunks and messages, then `end`, with the last cost among them |
| Handler.RelayPlain | backend/app/websocket/handler.py:32-39 | text becomes `chunk` frames, messages are appended as the step appends them, the last cost is kept |
| Handler.Requested | backend/app/websocket/handler.py:41-187 | an empty request is the no-tools error; a stopping call sends its frame, stores its `ask_user` id and returns finished, or, when its arguments do not parse, the processing error and not finished; otherwise the calls are served (`Served`) and the handler goes on exactly when there was no server call and no denial |
| Handler.HandleRequest | backend/app/websocket/handler.py:48-165 | a stopping call alone decides; otherwise server messages then client results are appended, the client calls are sent in one frame, and the handler goes on iff there were no server calls and no denial |
| Handler.Dispatch | backend/app/websocket/handler.py:81-165 | server calls, then client calls and their results; the next step runs after a server call or a denial |
| Handler.NestedStep | backend/app/websocket/handler.py:147-161 | the nested step keeps the frame and memory prefixes and ends the turn properly |
| Handler.ServeAndAsk | backend/app/websocket/handler.py:81-153 | memory gains the server messages then the recorded client results; one request frame is sent for the client calls; the inbox loses exactly the frames the wait consumed |
| Handler.Classify | backend/app/websocket/handler.py:55-79 | the sorting loop computes `Route` and stops at `Stopper` |
| Handler.StopCall | backend/app/websocket/handler.py:64-76 | `ask_user` stores a truthy id, then the question or reason (or its default) is sent and the turn ends; bad JSON arguments raise |
| Handler.RunServerCalls | backend/app/websocket/handler.py:82-117 | memory gains exactly the server messages, in order |
| Handler.AwaitClientResults | backend/app/websocket/handler.py:126-153 | the wait is `Awaited` over the inbox: it consumes exactly its frames and appends the recorded results |
| Handler.WaitOverStays | backend/app/websocket/handler.py:127 | once the wait is over, further frames change nothing |
| Handler.AbsorbDeniedStays | backend/app/websocket/handler.py:144-150 | once a denial is recorded, further entries change nothing |
| Handler.AbsorbResults | backend/app/websocket/handler.py:133-150 | one frame's entries are absorbed as `Absorb` says, and memory gains their tool messages |
| LegacyAgent.AsItems | backend/agent.py:110-118 | the chunks become stream items with the same choices |
| LegacyAgent.ChatAgent.constructor | backend/agent.py:31-51 | a new agent has the given model, a memory of just the system message, and no pending id |
| LegacyAgent.ChatAgent.SetModel | backend/agent.py:54-55 | only the model changes |
| LegacyAgent.ChatAgent.AddMessageToMemory | backend/agent.py:57-74 | exactly one message, built by `NewMessage`, is appended |
| LegacyAgent.ChatAgent.Step | backend/agent.py:77-201 | the step yields and appends exactly `LegacyTrace` of what the client does: one error dict if the call raised, otherwise every delta then the decision, or only the deltas delivered when iterating the stream raised; the exception that escapes is exactly that last one |
| LegacyAgent.RaisedQuiet | backend/agent.py:110-148 | a stream that raises while being iterated yields only text and appends nothing to memory |
| LegacyAgent.ChatAgent.StreamStep | backend/agent.py:105-199 | an opened stream yields its deltas, then the decision; when iterating it raises, the deltas delivered so far and no decision, so memory is unchanged |
| LegacyAgent.ChatAgent.Decide | backend/agent.py:158-199 | the decision after the stream is `LegacyDecision`, and memory grows by its messages |
| LegacyAgent.ChatAgent.DecideToolCalls | backend/agent.py:158-178 | the tool-call branch produces `ToolCallsOutcome` |
| LegacyAgent.ChatAgent.DecideStop | backend/agent.py:180-188 | the stop branch appends the text, or a message without content |
| LegacyAgent.ChatAgent.DecideOther | backend/agent.py:190-199 | any other reason produces `OtherOutcome` |
| LegacyAgent.ReadChunks | backend/agent.py:110-148 | the loop yields every non-empty delta, collects the text, keeps the finish reason of the last chunk with a choice (even `None`), and accumulates fragments |
| LegacyAgent.ReadChunk | backend/agent.py:115-147 | one chunk keeps the loop's invariant `ReadSoFar` |
| LegacyServer.DecisionHaltLast | backend/agent.py:158-199 | only the last event of the decision can halt the relaying |
| LegacyServer.LegacyHaltsLast | backend/agent.py:89-199 | only the last event of the older step can halt, so relaying it after it has run changes nothing |
| LegacyServer.LegacyFinishedIff | backend/main.py:128-140 | the turn is over iff the step ended without halting, or its first call is `ask_user` or `terminate` with parsable arguments |
| LegacyServer.LegacyRunStep | backend/main.py:30-150 | with no recursion left it fails at once; when the stream raises while being iterated, the chunks delivered go out, then "Error during agent processing: <e>", nothing is stored and the turn is not over; otherwise the whole step runs and its trace is relayed |
| LegacyServer.SendChunks | backend/main.py:35-36 | the `chunk` frames for the text among the first `n` events are sent, in order, and nothing else changes |
| LegacyServer.LegacyRelay | backend/main.py:35-140 | chunks for the text, then `end` or the action for the halting event |
| LegacyServer.LegacyAct | backend/main.py:38-121 | the error dict is relayed; an empty request is an error; otherwise the first call decides |
| LegacyServer.NestedLegacyStep | backend/main.py:68-84 | the nested step keeps the prefixes and sends at least one frame |
| LegacyServer.HandleLegacyFrame | backend/main.py:168-235 | invalid JSON, missing text, bad results and unknown types give their error frames; a user message or accepted results are added to memory and the step runs |
| LegacyServer.LegacyUserTurn | backend/main.py:176-207 | the user input goes to memory, clearing a pending id it answers, and the step runs |
| LegacyServer.AddUserInput | backend/main.py:185-203 | a pending `ask_user` id turns the text into that call's tool message and is cleared; otherwise a user message with the text and the screenshot |
| LegacyServer.AddLegacyResults | backend/main.py:216-223 | one tool message per entry with a truthy id, in order |
| LegacyServer.LegacyEndpoint | backend/main.py:153-254 | without a client the connection gets an error and close code 1008; otherwise a fresh agent on the default model serves every frame |
| Server.LineEnd | backend/app/main.py:174 | the first line ends at the first newline or the end |
| Server.FirstLine | backend/app/main.py:174 | `split('\n')[0]` is the text up to the first newline |
| Server.ShortenedPrefix | backend/app/main.py:174-176 | a prefix cut to 50 characters, with "..." iff it is shorter than the text |
| Server.TitleIsFirstLine | backend/app/main.py:172-178 | the title is the first line's first 50 characters at most, with "..." iff they are not the whole text |
| Server.WithContextKeepsText | backend/app/main.py:188-190 | the text is kept at the end, and the context is put in front iff it is not blank |
| Server.ExpectedIdsLatest | backend/app/main.py:234-239 | the expected ids are those of the latest message with tool calls, and none when there is none |
| Server.LatestExpectedIds | backend/app/main.py:231-239 | the search over the reversed memory computes the expected ids |
| Server.KeyMapExact | backend/app/main.py:321-329 | for a dict with distinct names, the kept keys are exactly the string-valued entries with their values, and the names echoed are exactly the kept keys |
| Server.Session.constructor | backend/app/main.py:105-125 | a new chat: agent on the default model, no cost, no keys, no stop requested |
| Server.Registry.constructor | backend/app/main.py:31 | no connection is active |
| Server.Charge | backend/app/main.py:207-219 | a cost adds to the session total and the new total is sent; no cost changes nothing |
| Server.StepAndCharge | backend/app/main.py:200-219 | the step runs with the session's keys and its cost is charged |
| Server.AddSessionInput | backend/app/main.py:181-198 | a pending `ask_user` id turns the text into its tool message and is cleared; otherwise a user message with the text behind its context, and the screenshot |
| Server.OnUserMessage | backend/app/main.py:159-219 | the input is added, the step runs on the extended memory and is charged; a title only for an empty memory |
| Server.AddResults | backend/app/main.py:241-250 | one tool message per truthy id, in order, and the set of those ids |
| Server.OnToolResult | backend/app/main.py:221-281 | bad results are an error; otherwise the results are added and the step runs iff every expected id was received |
| Server.OnUserResponse | backend/app/main.py:283-302 | a missing id or answer is an error; a pending question gets the answer; a done one is left alone; an unknown id is warned about; other connections' questions never change |
| Server.OnAudioInput | backend/app/main.py:335-359 | missing audio is an error; otherwise the transcription, or the HTTP or other failure, is sent back |
| Server.UserMessageTurn | backend/app/main.py:159-219 | a user message keeps the session valid and writes no title |
| Server.ToolResultTurn | backend/app/main.py:221-281 | bad results leave memory alone and send the error frame; the session stays valid |
| Server.OnSetModel | backend/app/main.py:305-317 | a truthy name becomes the model; anything else is an error and the model stays |
| Server.OnSetApiKeys | backend/app/main.py:320-332 | a dict replaces the keys with its string entries and the names are echoed; anything else is an error and the keys stay |
| Server.OnStop | backend/app/main.py:361-371 | the stop is acknowledged and the flag ends lowered |
| Server.HandleFrame | backend/app/main.py:155-384 | invalid JSON and unknown types give their error frames; no title is ever written; the session stays valid; other connections' questions never change |
| Server.Endpoint | backend/app/main.py:44-411 | a missing or malformed `chat_id` gives an error and 1008; a failed setup an error and 1011; otherwise the inbox is drained, and the connection's entries leave both global tables |
| Questions.Registered | backend/core/tools/web_tools.py:136-138 | registering keeps the table tidy and holds a pending future under the connection and request id |
| Questions.Forgotten | backend/core/tools/web_tools.py:156-160 | forgetting removes the request id, keeps the table tidy, and adds no connection |
| Questions.RegisterForgetRestores | backend/core/tools/web_tools.py:132-160 | registering a fresh id and forgetting it gives back the table as it was |
| Questions.QuestionTable.constructor | backend/app/main.py:41 | no questions are pending |
| Questions.QuestionTable.AskHuman | backend/core/tools/web_tools.py:132-160 | the question is sent unless sending fails; the result matches the outcome; the table ends as registered then forgotten |
| Questions.QuestionTable.Forget | backend/core/tools/web_tools.py:156-160 | the table becomes `Forgotten` |
| Questions.QuestionTable.Resolve | backend/app/main.py:293-302 | a pending future gets the answer; a done one and an unknown id leave the table alone; the result says which |
| Questions.QuestionTable.CancelAll | backend/core/tools/web_tools.py:213-218 | every pending future under the connection is cancelled and the connection's entry is deleted |
| WebTools.FetchUrlContent | backend/core/tools/web_tools.py:10-47 | a 200 response gives "Content from <url>:" then the cleaned, truncated text |
| WebTools.PerformWebSearch | backend/core/tools/web_tools.py:49-102 | the search tool returns `WebSearchResult`: the page for a URL, or the error texts, or the stripped report |
| WebTools.Report | backend/core/tools/web_tools.py:84-97 | the report is the header followed by one block per result |
| WebTools.UrlIgnoresQuery | backend/core/tools/web_tools.py:60-63 | a URL decides the result and the query is ignored |
| WebTools.BlocksAppend | backend/core/tools/web_tools.py:85-97 | one block per result, in order |
| WebTools.SplitOnNoDouble | backend/core/tools/web_tools.py:37 | the parts of a split at two spaces never contain two spaces in a row |
| WebTools.NoDoubleInfix | backend/core/tools/web_tools.py:37 | a part of a string keeps its lack of double spaces |
| WebTools.PiecesAppend | backend/core/tools/web_tools.py:37-38 | two lists of pieces make one |
| WebTools.StrippedPiece | backend/core/tools/web_tools.py:37 | a stripped phrase without double spaces is a piece or empty |
| WebTools.NonEmptyStrippedPieces | backend/core/tools/web_tools.py:37-38 | the non-empty stripped phrases are pieces |
| WebTools.PhrasesArePieces | backend/core/tools/web_tools.py:36-38 | every phrase kept from the page is a piece |
| WebTools.NoDoubleAppend | backend/core/tools/web_tools.py:38 | two strings without double spaces, not meeting at two spaces, make one without |
| WebTools.JoinPieces | backend/core/tools/web_tools.py:38 | pieces joined by single spaces have no whitespace at either end and no double space |
| WebTools.CleanIsTidy | backend/core/tools/web_tools.py:35-38 | the cleaned text has no leading or trailing whitespace and no two spaces in a row |
| WebTools.CleanKeepsWords | backend/core/tools/web_tools.py:35-38 | the clean-up changes only whitespace: `split()` of the cleaned text gives exactly the words of the page's text, in order |
| WebTools.WordsOfPhrases | backend/core/tools/web_tools.py:36-37 | the phrases of the lines hold exactly the lines' words, in order |
| WebTools.WordsOfLinePhrases | backend/core/tools/web_tools.py:36-37 | the phrases of one line hold exactly that line's words |
| WebTools.WordsOfNonEmptyStripped | backend/core/tools/web_tools.py:37-38 | stripping the phrases and dropping the empty ones keeps every word |
| WebTools.TakeWordOf | backend/core/tools/web_tools.py:41 | a word followed by whitespace or nothing is what `split()` takes first |
| WebTools.WordsOfWord | backend/core/tools/web_tools.py:41 | a single word splits into itself |
| WebTools.WordsOfCons | backend/core/tools/web_tools.py:41-43 | a word, a space and text starting with a non-space split into the word, then the text's words |
| WebTools.WordsOfJoin | backend/core/tools/web_tools.py:41-43 | words joined by single spaces split back into the same words |
| WebTools.WordsOfJoinOne | backend/core/tools/web_tools.py:41-43 | a single word joined splits back into itself |
| WebTools.WordsOfJoinStep | backend/core/tools/web_tools.py:41-43 | a word in front of a joined tail splits into the word and the tail's words |
| WebTools.TruncateKeepsWords | backend/core/tools/web_tools.py:40-43 | text of more than 1000 words keeps its first 1000, which the truncated text splits back into before its "..."; shorter text is kept as it is |

## Left out

- The chat database is not modelled: loading and saving messages, titles, costs and the current model. A chat always starts with a fresh agent, and `Server.Endpoint` takes whether setting it up failed as a parameter.
- The per-frame `ACTIVE_CONNECTIONS` lookup, and the 1011 close when it fails, are not modelled. The loop works on the session the endpoint registered, and nothing removes it mid-loop.
- The call-site mismatches are not modelled. `backend/app/main.py:202-206` passes a `connection_state` keyword that `run_agent_step_and_send` does not take. `backend/core/agent/agent.py:139-144` passes one that `get_llm_response_stream` does not take. The model follows the calls as evidently intended, with the keyword dropped; as written, both calls raise a `TypeError`. A third one: `backend/main.py:12` imports `SERVER_EXECUTABLE_TOOLS` from `backend/tools.py`, which does not define it, so as written the older server fails when it is imported; the model takes that registry as a parameter.
- Concurrency is not modelled. `asyncio.Future` is a state in a map (pending, done, cancelled), and the 300-second wait of `ask_human` is an outcome parameter.
- The generic `except Exception` paths of the receive loops ("Error processing request", "Unexpected WebSocket error") are not modelled, apart from the exceptions this core raises itself.
- Socket send failures are not modelled; a send always succeeds.
- Python's recursion limit is `fuel`, a count of nested steps left; with none left, the handler sends the recursion error.
- External code is represented by function parameters it cannot see into: the LLM provider, `json.loads` of a response or of arguments, `hash`, `uuid.UUID`, transcription, the server tools, page fetching and the search service.
- The `browser_user` branch of the handler and `execute_browser_task` are not modelled (the tool is disabled in the registry). Only its question table (`ask_human`, clean-up) is.
- `backend/core/tools/memory_tools.py` is not part of this model. Its tools are server tools whose outcome is a parameter.
- Costs are `real`s, not floats. Token counting and prices are part of the provider's outcome.
- Python's `repr` escaping in the echoed list of key names is not modelled: names with quotes or backslashes.
- Fields that are not strings are not modelled: a non-string `answer` or `tool_call_id`; a non-string `text`, `screenshot_data_url` or `context_text` of a `user_message` is read as absent. In Python a truthy non-string `text` raises at `text[:50]` (`backend/app/main.py:169`, `backend/main.py:183`) and becomes "Error processing request: …" rather than "Missing text in user_message", and a non-string screenshot would be sent on as the image URL.
- Result entries that are not dicts are not modelled.
- A search result's field is `None` when its key is absent, which prints "N/A". An explicit JSON `null` is not modelled: Python prints "None" for a null title or URL, and a null `content` raises at `content.split()`, which gives "Error: Tavily search failed - …" (`backend/core/tools/web_tools.py:86-89`).
- The `num_results` argument of `perform_web_search` (`backend/core/tools/web_tools.py:49`, 76) is not passed to the search, which is a parameter; how many results come back is part of its outcome.
- The older server's registry of server tools is a parameter, because the module it is imported from does not define it (see the call-site mismatches above).
- The wording of the system prompts is a constant, not the source's text.
- Debug printing and logging are not modelled.
- Handler.NestedStep: states only what its callers rely on (prefixes kept, the turn ended properly), not the nested relaying, which `Handler.RunAgentStepAndSend` states.
- LegacyServer.NestedLegacyStep: states only the prefixes and that a frame is sent, not the nested relaying.
- Server.UserMessageTurn: states validity and prefixes only; what the branch does is stated by `Server.OnUserMessage`.
- Server.ToolResultTurn: states validity, prefixes and the rejection only; the rest is stated by `Server.OnToolResult`.
- Server.HandleFrame: states the error branches and the invariants; each other branch is stated by its own member (`Server.OnUserMessage`, `Server.OnToolResult`, `Server.OnUserResponse`, `Server.OnSetModel`, `Server.OnSetApiKeys`, `Server.OnAudioInput`, `Server.OnStop`).
- Server.Endpoint: states the connection validation and the clean-up, not the frames of the loop, which `Server.HandleFrame` states.
- LegacyServer.LegacyEndpoint: states the refusal and the drained inbox, not the frames of the loop, which `LegacyServer.HandleLegacyFrame` states.
- WebTools.FetchUrlContent: its own contract states only the success prefix; what the cleaned and truncated text is, is stated by `WebTools.CleanIsTidy`, `WebTools.CleanKeepsWords` and `WebTools.TruncateKeepsWords`.
- ToolAccumulator.AddFragment: a tool-call fragment without a `function` is read as one with an empty name and no arguments. The first fragment of an index reads `tc_chunk.function.name` without checking `function` (`backend/core/agent/agent.py:226`, `backend/agent.py:137`), so in Python such a fragment raises `AttributeError`, and the turn ends with "Error during agent processing: …" (`backend/app/websocket/handler.py:180-190`, `backend/main.py:142-150`); the model accumulates the call instead, in both agents.
- AgentTrace.StopPlain, AgentTrace.StopQuiet and AgentTrace.StopDecision are stated for any reading of the response as a call that passes the validity test, not only for `Reinterpret`'s.
