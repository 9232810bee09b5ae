/** The older server of `backend/main.py`: one agent per connection, a
    handler that looks only at the first call of a request and answers
    whether the agent's turn is over, and a receive loop for `user_message`
    and `tool_result` frames. The set of server tools it imports is a
    parameter here. */
module LegacyServer {
  import opened Common
  import opened Protocol
  import opened ToolAccumulator
  import opened AgentStream
  import opened AgentTrace
  import opened ToolRouting
  import opened Handler
  import opened Channel
  import opened LegacyAgent

  /** What running a server tool does: it returns its result, its
      arguments are not JSON, or it raises. */
  datatype ServerAttempt = Ran(result: string) | ArgsInvalid | Failed(message: string)

  /** What the legacy server cannot see into: the SDK client, the reading
      of an argument string, the server tools it imports and running them. */
  datatype LegacyEnv = LegacyEnv(client: (string, seq<Message>) -> LegacyRun, argField: (string, string) -> ArgLookup,
                                 serverTools: set<string>, serverRun: (string, string) -> ServerAttempt)

  const LegacyClientTools: set<string> := {"run_bash_command", "read_file", "edit_file"}

  /** How the legacy handler reads the name of a request's first call, in
      the order it tests it. */
  datatype LegacyKind = ServerCall | ClientCall | AskCall | TerminateCall | UnknownCall

  function LegacyKindOf(name: string, serverTools: set<string>): LegacyKind
  {
    if name in serverTools then ServerCall
    else if name in LegacyClientTools then ClientCall
    else if name == "ask_user" then AskCall
    else if name == "terminate" then TerminateCall
    else UnknownCall
  }

  /** The tool message's content after a server call. */
  function LegacyServerResult(c: ToolCall, run: (string, string) -> ServerAttempt): string
  {
    match run(c.name, c.arguments)
    case Ran(r) => r
    case ArgsInvalid => "Error: Invalid arguments provided for " + c.name + "."
    case Failed(m) => "Error executing tool " + c.name + ": " + m
  }

  /** Only the last event of a trace can halt the relaying. */
  predicate HaltLast(t: seq<StepEvent>)
  {
    forall k :: 0 <= k < |t| - 1 ==> !Halts(t[k])
  }

  lemma HaltLastAppend(a: seq<StepEvent>, b: seq<StepEvent>)
    requires NoHalts(a) && HaltLast(b)
    ensures HaltLast(a + b)
  {
    forall k | 0 <= k < |a + b| - 1
      ensures !Halts((a + b)[k])
    {
      if k >= |a| {
        assert (a + b)[k] == b[k - |a|];
      }
    }
  }

  lemma DecisionHaltLast(text: string, reason: Option<string>, progress: Progress)
    requires Keyed(progress)
    ensures HaltLast(LegacyDecision(text, reason, progress))
  {
  }

  /** The older step never goes on after an error dict or a request: all
      it appends comes before, so running it to the end and relaying its
      events afterwards changes nothing. */
  lemma LegacyHaltsLast(run: LegacyRun)
    ensures HaltLast(LegacyTrace(run))
  {
    if run.StreamRaised? {
      RaisedQuiet(run.chunks, run.error);
    } else if run.Streamed? {
      var items := AsItems(run.chunks);
      var ds := Deltas(items, |items|);
      Accumulated(Fragments(items, |items|));
      TextEventsAt(ds, |ds|);
      var d := LegacyDecision(Concat(ds, |ds|), FinalReason(run.chunks, |run.chunks|), AddAll(Empty, Fragments(items, |items|)));
      DecisionHaltLast(Concat(ds, |ds|), FinalReason(run.chunks, |run.chunks|), AddAll(Empty, Fragments(items, |items|)));
      HaltLastAppend(TextEvents(ds, |ds|), d);
    }
  }

  /** The first call of a request, once the chunks before it went out as
      `shown`: a server call leaves its tool message and the next step runs;
      one of the three client tools goes out alone; `ask_user` (storing its
      id when truthy) and `terminate` send their frame and end the turn, or
      fail with the processing error when their arguments do not parse; any
      other name is an error. */
  predicate LegacyFirstCall(c: ToolCall, env: LegacyEnv, shown: seq<OutFrame>, sent: seq<OutFrame>,
                            memory0: seq<Message>, memory: seq<Message>, ask0: Option<string>, ask: Option<string>,
                            finished: bool)
  {
    match LegacyKindOf(c.name, env.serverTools)
    case ServerCall =>
      !finished && Prefix(shown, sent) && |sent| > |shown| &&
      Prefix(memory0 + [ToolMessage(c.id, LegacyServerResult(c, env.serverRun))], memory)
    case ClientCall =>
      !finished && sent == shown + [ToolCallRequestFrame([c])] && memory == memory0 && ask == ask0
    case UnknownCall =>
      !finished && sent == shown + [ErrorFrame("Agent requested unknown tool: " + c.name)] && memory == memory0 && ask == ask0
    case _ =>
      memory == memory0 && ask == (if c.name == "ask_user" && Truthy(c.id) then c.id else ask0) &&
      match env.argField(c.arguments, StopKey(c))
      case BadJson(m) => !finished && sent == shown + [ErrorFrame(ProcessingErrorPrefix + m)]
      case _ => finished && sent == shown + StopFrames(c, env.argField)
  }

  /** What the older handler does with the halting event `y`, once the
      chunks before it went out as `shown`. */
  predicate LegacyActed(y: Yielded, env: LegacyEnv, shown: seq<OutFrame>, sent: seq<OutFrame>,
                        memory0: seq<Message>, memory: seq<Message>, ask0: Option<string>, ask: Option<string>,
                        finished: bool)
  {
    match y
    case ErrorOut(content) => !finished && sent == shown + [ErrorFrame(content)] && memory == memory0 && ask == ask0
    case RequestOut(calls) =>
      if calls == [] then !finished && sent == shown + [ErrorFrame(NoToolsSent)] && memory == memory0 && ask == ask0
      else LegacyFirstCall(calls[0], env, shown, sent, memory0, memory, ask0, ask, finished)
    case _ => false
  }

  /** What relaying the older step's trace `t` does, `memory0` being the
      memory once the step has appended its messages: the chunks before
      the halting event, then `end` when there is none, or what the older
      handler does with that event. */
  predicate LegacyRelayed(t: seq<StepEvent>, env: LegacyEnv, sent0: seq<OutFrame>, sent: seq<OutFrame>,
                          memory0: seq<Message>, memory: seq<Message>, ask0: Option<string>, ask: Option<string>,
                          finished: bool)
  {
    var n := FirstHalt(t, 0);
    var shown := sent0 + Chunks(t, 0, n);
    (n == |t| ==> finished && sent == shown + [EndFrame] && memory == memory0 && ask == ask0) &&
    (n < |t| ==> LegacyActed(t[n].item, env, shown, sent, memory0, memory, ask0, ask, finished))
  }

  /** One call of the older handler for an agent whose model and memory are
      `model` and `memory0`: with no fuel left it fails at once; otherwise
      the whole step runs and its trace is relayed, except that a stream
      that raises ends the relaying after its chunks with the processing
      error, and nothing is stored for that step. */
  predicate LegacyStepDone(env: LegacyEnv, fuel: nat, model: string, memory0: seq<Message>, sent0: seq<OutFrame>,
                           sent: seq<OutFrame>, memory: seq<Message>, ask0: Option<string>, ask: Option<string>,
                           finished: bool)
  {
    if fuel == 0 then
      !finished && sent == sent0 + [ErrorFrame(ProcessingErrorPrefix + RecursionLimit)] && memory == memory0 && ask == ask0
    else
      var run := env.client(model, memory0);
      var t := LegacyTrace(run);
      if run.StreamRaised? then
        !finished && sent == sent0 + Chunks(t, 0, |t|) + [ErrorFrame(ProcessingErrorPrefix + run.error)] &&
        memory == memory0 && ask == ask0
      else
        LegacyRelayed(t, env, sent0, sent, memory0 + Remembered(t), memory, ask0, ask, finished)
  }

  /** The turn is over exactly when the step ended without halting, or
      with an `ask_user` or `terminate` first call whose arguments parse. */
  lemma LegacyFinishedIff(t: seq<StepEvent>, env: LegacyEnv, sent0: seq<OutFrame>, sent: seq<OutFrame>,
                          memory0: seq<Message>, memory: seq<Message>, ask0: Option<string>, ask: Option<string>,
                          finished: bool)
    requires LegacyRelayed(t, env, sent0, sent, memory0, memory, ask0, ask, finished)
    ensures var n := FirstHalt(t, 0);
      finished <==>
        n == |t| ||
        (t[n].item.RequestOut? && t[n].item.calls != [] &&
         LegacyKindOf(t[n].item.calls[0].name, env.serverTools) in {AskCall, TerminateCall} &&
         !env.argField(t[n].item.calls[0].arguments, StopKey(t[n].item.calls[0])).BadJson?)
  {
    var n := FirstHalt(t, 0);
    if n < |t| && t[n].item.RequestOut? && t[n].item.calls != [] {
      var c := t[n].item.calls[0];
      var shown := sent0 + Chunks(t, 0, n);
      assert LegacyFirstCall(c, env, shown, sent, memory0, memory, ask0, ask, finished);
    }
  }

  /** `run_agent_step_and_send` of the older server. */
  method LegacyRunStep(agent: LegacyAgent.ChatAgent, socket: Socket, env: LegacyEnv, fuel: nat) returns (finished: bool)
    modifies agent, socket
    decreases fuel, 3
    ensures agent.modelName == old(agent.modelName) && socket.inbox == old(socket.inbox) && socket.closedWith == old(socket.closedWith)
    ensures Prefix(old(agent.memory), agent.memory) && Prefix(old(socket.sent), socket.sent) && |socket.sent| > |old(socket.sent)|
    ensures AskIdKept(old(agent.pendingAskId), agent.pendingAskId)
    ensures LegacyStepDone(env, fuel, old(agent.modelName), old(agent.memory), old(socket.sent), socket.sent,
                           agent.memory, old(agent.pendingAskId), agent.pendingAskId, finished)
  {
    if fuel == 0 {
      socket.Send(ErrorFrame(ProcessingErrorPrefix + RecursionLimit));
      return false;
    }
    LegacyHaltsLast(env.client(agent.modelName, agent.memory));
    var t, raised := agent.Step(env.client);
    PrefixOfAppend(old(agent.memory), Remembered(t));
    if raised.Some? {
      RaisedQuiet(env.client(old(agent.modelName), old(agent.memory)).chunks, raised.value);
      SendChunks(socket, t, |t|);
      socket.Send(ErrorFrame(ProcessingErrorPrefix + raised.value));
      AppendEmpty(old(agent.memory));
      PrefixOfAppend(old(socket.sent), Chunks(t, 0, |t|) + [ErrorFrame(ProcessingErrorPrefix + raised.value)]);
      return false;
    }
    ghost var memoryHere := agent.memory;
    finished := LegacyRelay(agent, socket, env, fuel, t);
    PrefixTrans(old(agent.memory), memoryHere, agent.memory);
  }

  /** The `chunk` frames for the text among the first `n` events, sent in
      order. */
  method SendChunks(socket: Socket, t: seq<StepEvent>, n: nat)
    requires n <= |t|
    modifies socket
    ensures socket.sent == old(socket.sent) + Chunks(t, 0, n)
    ensures socket.inbox == old(socket.inbox) && socket.closedWith == old(socket.closedWith)
  {
    var i := 0;
    while i < n
      invariant i <= n && socket.sent == old(socket.sent) + Chunks(t, 0, i)
      invariant socket.inbox == old(socket.inbox) && socket.closedWith == old(socket.closedWith)
    {
      if t[i].Emit? && t[i].item.TextOut? {
        AppendAssoc(old(socket.sent), Chunks(t, 0, i), [ChunkFrame(t[i].item.text)]);
        socket.Send(ChunkFrame(t[i].item.text));
      }
      i := i + 1;
    }
  }

  /** The `async for` over a step already run: chunks for its text, then
      the action for the halting event, if any. */
  method LegacyRelay(agent: LegacyAgent.ChatAgent, socket: Socket, env: LegacyEnv, fuel: nat, t: seq<StepEvent>)
    returns (finished: bool)
    requires fuel > 0 && HaltLast(t)
    modifies agent, socket
    decreases fuel, 2
    ensures agent.modelName == old(agent.modelName) && socket.inbox == old(socket.inbox) && socket.closedWith == old(socket.closedWith)
    ensures Prefix(old(agent.memory), agent.memory) && Prefix(old(socket.sent), socket.sent) && |socket.sent| > |old(socket.sent)|
    ensures AskIdKept(old(agent.pendingAskId), agent.pendingAskId)
    ensures LegacyRelayed(t, env, old(socket.sent), socket.sent, old(agent.memory), agent.memory,
                          old(agent.pendingAskId), agent.pendingAskId, finished)
  {
    var n := FirstHalt(t, 0);
    SendChunks(socket, t, n);
    PrefixOfAppend(old(socket.sent), Chunks(t, 0, n));
    ghost var shown := socket.sent;
    if n == |t| {
      socket.Send(EndFrame);
      PrefixOfAppend(shown, [EndFrame]);
      PrefixTrans(old(socket.sent), shown, socket.sent);
      return true;
    }
    finished := LegacyAct(agent, socket, env, fuel, t[n].item);
    PrefixTrans(old(socket.sent), shown, socket.sent);
  }

  /** The halting event: the error dict is relayed; an empty request is an
      error; otherwise the request's first call decides. */
  method LegacyAct(agent: LegacyAgent.ChatAgent, socket: Socket, env: LegacyEnv, fuel: nat, y: Yielded)
    returns (finished: bool)
    requires fuel > 0 && (y.ErrorOut? || y.RequestOut?)
    modifies agent, socket
    decreases fuel, 0
    ensures agent.modelName == old(agent.modelName) && socket.inbox == old(socket.inbox) && socket.closedWith == old(socket.closedWith)
    ensures Prefix(old(agent.memory), agent.memory) && Prefix(old(socket.sent), socket.sent) && |socket.sent| > |old(socket.sent)|
    ensures AskIdKept(old(agent.pendingAskId), agent.pendingAskId)
    ensures LegacyActed(y, env, old(socket.sent), socket.sent, old(agent.memory), agent.memory,
                        old(agent.pendingAskId), agent.pendingAskId, finished)
  {
    PrefixOfAppend(agent.memory, []);
    if y.ErrorOut? {
      socket.Send(ErrorFrame(y.content));
      PrefixOfAppend(old(socket.sent), [ErrorFrame(y.content)]);
      return false;
    }
    if y.calls == [] {
      socket.Send(ErrorFrame(NoToolsSent));
      PrefixOfAppend(old(socket.sent), [ErrorFrame(NoToolsSent)]);
      return false;
    }
    var c := y.calls[0];
    var kind := LegacyKindOf(c.name, env.serverTools);
    if kind == ServerCall {
      var content: string;
      match env.serverRun(c.name, c.arguments) {
        case Ran(r) =>
          content := r;
        case ArgsInvalid =>
          content := "Error: Invalid arguments provided for " + c.name + ".";
        case Failed(m) =>
          content := "Error executing tool " + c.name + ": " + m;
      }
      agent.AddMessageToMemory("tool", Some(Text(content)), None, c.id);
      ghost var memoryHere := agent.memory;
      PrefixOfAppend(old(agent.memory), [ToolMessage(c.id, content)]);
      var _ := NestedLegacyStep(agent, socket, env, fuel - 1);
      PrefixTrans(old(agent.memory), memoryHere, agent.memory);
      return false;
    } else if kind == ClientCall {
      socket.Send(ToolCallRequestFrame([c]));
      PrefixOfAppend(old(socket.sent), [ToolCallRequestFrame([c])]);
      return false;
    } else if kind == UnknownCall {
      socket.Send(ErrorFrame("Agent requested unknown tool: " + c.name));
      PrefixOfAppend(old(socket.sent), [ErrorFrame("Agent requested unknown tool: " + c.name)]);
      return false;
    }
    if kind == AskCall && Truthy(c.id) {
      agent.pendingAskId := c.id;
    }
    var lookup := env.argField(c.arguments, StopKey(c));
    if lookup.BadJson? {
      socket.Send(ErrorFrame(ProcessingErrorPrefix + lookup.message));
      PrefixOfAppend(old(socket.sent), [ErrorFrame(ProcessingErrorPrefix + lookup.message)]);
      return false;
    }
    var text := if lookup.Present? then lookup.value else StopDefault(c);
    socket.Send(StopFrame(c, text));
    PrefixOfAppend(old(socket.sent), [StopFrame(c, text)]);
    return true;
  }

  /** The nested call after a server tool, as its caller relies on it; its
      result is ignored. */
  method NestedLegacyStep(agent: LegacyAgent.ChatAgent, socket: Socket, env: LegacyEnv, fuel: nat) returns (finished: bool)
    modifies agent, socket
    decreases fuel, 4
    ensures agent.modelName == old(agent.modelName) && socket.inbox == old(socket.inbox) && socket.closedWith == old(socket.closedWith)
    ensures Prefix(old(agent.memory), agent.memory) && Prefix(old(socket.sent), socket.sent) && |socket.sent| > |old(socket.sent)|
    ensures AskIdKept(old(agent.pendingAskId), agent.pendingAskId)
  {
    finished := LegacyRunStep(agent, socket, env, fuel);
  }

  // ---- The receive loop ----

  /** A `user_message` with text: the answer to a pending `ask_user` call
      becomes that call's tool message; otherwise a user message holding
      the text, and the screenshot as an image when one is given. */
  function UserInput(text: string, screenshot: Option<string>, ask: Option<string>): Message
  {
    if Truthy(ask) then ToolMessage(ask, text)
    else NewMessage("user", Some(Parts([TextPart(text)] + (if Truthy(screenshot) then [ImagePart(screenshot.value)] else []))), None, None)
  }

  /** The tool messages a `tool_result` frame adds: one per entry with a
      truthy id, in order. */
  function LegacyToolResults(es: seq<ResultEntry>): seq<Message>
  {
    if es == [] then []
    else LegacyToolResults(es[..|es| - 1]) +
         (if Truthy(es[|es| - 1].toolCallId) then [ToolMessage(es[|es| - 1].toolCallId, es[|es| - 1].content)] else [])
  }

  /** The `type` field of a frame this server does not handle. */
  function LegacyTypeName(f: Inbound): string
  {
    match f
    case OtherType(kind) => Show(kind)
    case UserResponse(_, _) => "user_response"
    case SetLlmModel(_) => "set_llm_model"
    case SetApiKeys(_) => "set_api_keys"
    case StopRequest => "stop"
    case AudioInput(_, _) => "audio_input"
    case _ => ""
  }

  /** A `tool_result` frame whose `results` the server accepts: a
      non-empty list. */
  predicate AcceptedResults(r: ResultsField)
  {
    r.ResultsList? && r.entries != []
  }

  /** One frame of the older receive loop. A frame that runs the agent
      returns the step's answer in `turn`. */
  method HandleLegacyFrame(agent: LegacyAgent.ChatAgent, socket: Socket, f: Inbound, env: LegacyEnv, fuel: nat)
    returns (turn: Option<bool>)
    modifies agent, socket
    ensures agent.modelName == old(agent.modelName) && socket.inbox == old(socket.inbox) && socket.closedWith == old(socket.closedWith)
    ensures Prefix(old(socket.sent), socket.sent)
    ensures f.Malformed? ==>
      turn == None && socket.sent == old(socket.sent) + [ErrorFrame("Invalid JSON received")] &&
      agent.memory == old(agent.memory) && agent.pendingAskId == old(agent.pendingAskId)
    ensures f.UserMessage? && !Truthy(f.text) ==>
      turn == None && socket.sent == old(socket.sent) + [ErrorFrame("Missing text in user_message")] &&
      agent.memory == old(agent.memory) && agent.pendingAskId == old(agent.pendingAskId)
    ensures f.UserMessage? && Truthy(f.text) ==>
      turn.Some? &&
      LegacyStepDone(env, fuel, old(agent.modelName), old(agent.memory) + [UserInput(f.text.value, f.screenshot, old(agent.pendingAskId))],
                     old(socket.sent), socket.sent, agent.memory,
                     if Truthy(old(agent.pendingAskId)) then None else old(agent.pendingAskId), agent.pendingAskId, turn.value)
    ensures f.ToolResult? && !AcceptedResults(f.results) ==>
      turn == None && socket.sent == old(socket.sent) + [ErrorFrame("Missing or invalid results in tool_result message")] &&
      agent.memory == old(agent.memory) && agent.pendingAskId == old(agent.pendingAskId)
    ensures f.ToolResult? && AcceptedResults(f.results) ==>
      turn.Some? &&
      LegacyStepDone(env, fuel, old(agent.modelName), old(agent.memory) + LegacyToolResults(f.results.entries),
                     old(socket.sent), socket.sent, agent.memory, old(agent.pendingAskId), agent.pendingAskId, turn.value)
    ensures !(f.Malformed? || f.UserMessage? || f.ToolResult?) ==>
      turn == None && socket.sent == old(socket.sent) + [ErrorFrame("Invalid message type received: " + LegacyTypeName(f))] &&
      agent.memory == old(agent.memory) && agent.pendingAskId == old(agent.pendingAskId)
  {
    turn := None;
    PrefixOfAppend(socket.sent, [ErrorFrame("Invalid JSON received")]);
    PrefixOfAppend(socket.sent, [ErrorFrame("Missing text in user_message")]);
    PrefixOfAppend(socket.sent, [ErrorFrame("Missing or invalid results in tool_result message")]);
    PrefixOfAppend(socket.sent, [ErrorFrame("Invalid message type received: " + LegacyTypeName(f))]);
    match f
    case Malformed =>
      socket.Send(ErrorFrame("Invalid JSON received"));
    case UserMessage(text, screenshot, _) =>
      if !Truthy(text) {
        socket.Send(ErrorFrame("Missing text in user_message"));
        return;
      }
      var finished := LegacyUserTurn(agent, socket, text.value, screenshot, env, fuel);
      turn := Some(finished);
    case ToolResult(results) =>
      if !AcceptedResults(results) {
        socket.Send(ErrorFrame("Missing or invalid results in tool_result message"));
        return;
      }
      AddLegacyResults(agent, results.entries);
      var finished := LegacyRunStep(agent, socket, env, fuel);
      turn := Some(finished);
    case _ =>
      socket.Send(ErrorFrame("Invalid message type received: " + LegacyTypeName(f)));
  }

  /** A `user_message` with text: its message goes into memory (clearing
      a pending `ask_user` id it answers) and the step runs. */
  method LegacyUserTurn(agent: LegacyAgent.ChatAgent, socket: Socket, text: string, screenshot: Option<string>,
                        env: LegacyEnv, fuel: nat)
    returns (finished: bool)
    modifies agent, socket
    ensures agent.modelName == old(agent.modelName) && socket.inbox == old(socket.inbox) && socket.closedWith == old(socket.closedWith)
    ensures Prefix(old(socket.sent), socket.sent)
    ensures LegacyStepDone(env, fuel, old(agent.modelName), old(agent.memory) + [UserInput(text, screenshot, old(agent.pendingAskId))],
                           old(socket.sent), socket.sent, agent.memory,
                           if Truthy(old(agent.pendingAskId)) then None else old(agent.pendingAskId), agent.pendingAskId, finished)
  {
    AddUserInput(agent, text, screenshot);
    finished := LegacyRunStep(agent, socket, env, fuel);
  }

  /** The message a `user_message` adds, and the pending id it clears. */
  method AddUserInput(agent: LegacyAgent.ChatAgent, text: string, screenshot: Option<string>)
    modifies agent
    ensures agent.memory == old(agent.memory) + [UserInput(text, screenshot, old(agent.pendingAskId))]
    ensures agent.pendingAskId == (if Truthy(old(agent.pendingAskId)) then None else old(agent.pendingAskId))
    ensures agent.modelName == old(agent.modelName)
  {
    if Truthy(agent.pendingAskId) {
      agent.AddMessageToMemory("tool", Some(Text(text)), None, agent.pendingAskId);
      agent.pendingAskId := None;
    } else {
      var parts := [TextPart(text)];
      if Truthy(screenshot) {
        parts := parts + [ImagePart(screenshot.value)];
      } else {
        assert parts == parts + [];
      }
      agent.AddMessageToMemory("user", Some(Parts(parts)), None, None);
    }
  }

  /** The loop over a `tool_result` frame's entries. */
  method AddLegacyResults(agent: LegacyAgent.ChatAgent, es: seq<ResultEntry>)
    modifies agent
    ensures agent.memory == old(agent.memory) + LegacyToolResults(es)
    ensures agent.modelName == old(agent.modelName) && agent.pendingAskId == old(agent.pendingAskId)
  {
    var i := 0;
    while i < |es|
      invariant i <= |es| && agent.memory == old(agent.memory) + LegacyToolResults(es[..i])
      invariant agent.modelName == old(agent.modelName) && agent.pendingAskId == old(agent.pendingAskId)
    {
      assert es[..i + 1][..i] == es[..i];
      if Truthy(es[i].toolCallId) {
        AppendAssoc(old(agent.memory), LegacyToolResults(es[..i]), [ToolMessage(es[i].toolCallId, es[i].content)]);
        agent.AddMessageToMemory("tool", Some(Text(es[i].content)), None, es[i].toolCallId);
      }
      i := i + 1;
    }
    assert es[..i] == es;
  }

  /** `websocket_endpoint` of the older server: without an SDK client the
      connection is refused with an error and close code 1008; otherwise a
      fresh agent serves every frame until the client is gone. */
  method LegacyEndpoint(socket: Socket, clientReady: bool, env: LegacyEnv, fuel: nat) returns (agent: LegacyAgent.ChatAgent?)
    modifies socket
    ensures !clientReady ==>
      agent == null && socket.sent == old(socket.sent) + [ErrorFrame("Backend OpenAI client not initialized")] &&
      socket.closedWith == Some(1008) && socket.inbox == old(socket.inbox)
    ensures clientReady ==>
      agent != null && fresh(agent) && agent.modelName == LegacyDefaultModel &&
      socket.inbox == [] && socket.closedWith == old(socket.closedWith) && Prefix(old(socket.sent), socket.sent)
  {
    if !clientReady {
      socket.Send(ErrorFrame("Backend OpenAI client not initialized"));
      socket.Close(1008);
      return null;
    }
    agent := new LegacyAgent.ChatAgent(LegacyDefaultModel);
    PrefixOfAppend(socket.sent, []);
    while socket.inbox != []
      invariant agent.modelName == LegacyDefaultModel && fresh(agent)
      invariant socket.closedWith == old(socket.closedWith) && Prefix(old(socket.sent), socket.sent)
      decreases |socket.inbox|
    {
      ghost var sentHere := socket.sent;
      var f := socket.Receive();
      var _ := HandleLegacyFrame(agent, socket, f.value, env, fuel);
      PrefixTrans(old(socket.sent), sentHere, socket.sent);
    }
  }
}
