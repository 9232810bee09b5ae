/** The current server of `backend/app/main.py`: the validation of
    `chat_id`, the per-connection state kept in `ACTIVE_CONNECTIONS`, the
    receive loop that dispatches each inbound frame, and the clean-up of
    both global tables when the connection ends. Reading and writing the
    chat database is not part of this model; a chat always starts fresh. */
module Server {
  import opened Common
  import opened Protocol
  import opened Channel
  import opened Questions
  import opened ToolRouting
  import opened Handler
  import opened LegacyServer
  import Agent

  const PolicyViolation: int := 1008
  const InternalError: int := 1011

  const ChatIdRequired: string := "chat_id query parameter is required."
  const ChatIdInvalid: string := "Invalid chat_id format."
  const SessionFailed: string := "Failed to initialize chat session."

  /** How `get_transcription` ends: with the text, with an `HTTPException`
      carrying its detail, or with any other exception. */
  datatype Transcribed = Transcript(text: string) | HttpFailure(detail: string) | Failure(message: string)

  /** What the endpoint cannot see into: everything the agent step needs,
      `uuid.UUID` accepting a string, and the transcription service. */
  datatype ServerEnv = ServerEnv(step: Env, uuidValid: string -> bool, transcribe: (string, string) -> Transcribed)

  // ---- Chat title ----

  /** Where the first line of `s` ends: the first newline, or the end. */
  function LineEnd(s: string): (n: nat)
    ensures n <= |s| && (n < |s| ==> s[n] == '\n')
    ensures forall i :: 0 <= i < n ==> s[i] != '\n'
  {
    if s == [] then 0 else if s[0] == '\n' then 0 else 1 + LineEnd(s[1..])
  }

  /** The title a first message would give the chat: its first line, cut
      to 50 characters, with "..." when that is shorter than the text. */
  function Title(text: string): string
  {
    Shortened(SplitOn(text, "\n")[0], text)
  }

  function Shortened(line: string, text: string): string
  {
    var cut := if |line| > 50 then line[..50] else line;
    if |cut| < |text| then cut + "..." else cut
  }

  /** `text.split('\n')[0]` is the text up to the first newline. */
  lemma {:induction false} FirstLine(s: string)
    ensures SplitOn(s, "\n")[0] == s[..LineEnd(s)]
  {
    if |s| >= 1 && s[..1] != "\n" {
      assert s[0] != '\n';
      FirstLine(s[1..]);
      assert [s[0]] + s[1..][..LineEnd(s[1..])] == s[..LineEnd(s)];
    }
  }

  lemma ShortenedPrefix(text: string, n: nat)
    requires n <= |text|
    ensures var k := if n > 50 then 50 else n;
      Shortened(text[..n], text) == text[..k] + (if k < |text| then "..." else "")
  {
    if n > 50 {
      assert text[..n][..50] == text[..50];
    }
  }

  /** The title is the first line's first 50 characters at most, and "..."
      follows exactly when they are not the whole text. */
  lemma TitleIsFirstLine(text: string)
    ensures var k := if LineEnd(text) > 50 then 50 else LineEnd(text);
      Title(text) == text[..k] + (if k < |text| then "..." else "")
  {
    FirstLine(text);
    ShortenedPrefix(text, LineEnd(text));
  }

  // ---- A user message ----

  /** The user text, behind the context when one with something other than
      whitespace is given. */
  function WithContext(text: string, context: Option<string>): string
  {
    if Truthy(context) && Strip(context.value) != "" then
      "Based on this context:\n```\n" + context.value + "\n```\n\n" + text
    else text
  }

  /** The text is kept as the end of what is sent, and the context is put
      in front exactly when it is not blank. */
  lemma WithContextKeepsText(text: string, context: Option<string>)
    ensures var r := WithContext(text, context);
      |text| <= |r| && r[|r| - |text|..] == text &&
      (r == text <==> context.None? || Strip(context.value) == "")
  {
    var r := WithContext(text, context);
    if context.Some? && Strip(context.value) != "" {
      assert context.value != [];
      assert |r| > |text|;
    }
  }

  /** The message a `user_message` adds: the answer to a pending `ask_user`
      call as that call's tool message, or a user message with the text
      (behind its context) and the screenshot. */
  function SessionInput(text: string, screenshot: Option<string>, context: Option<string>, ask: Option<string>): Message
  {
    UserInput(if Truthy(ask) then text else WithContext(text, context), screenshot, ask)
  }

  // ---- A tool_result ----

  /** An assistant message whose `tool_calls` is a non-empty list. */
  predicate Calls(m: Message)
  {
    m.role == "assistant" && m.toolCalls.Some? && m.toolCalls.value != []
  }

  function CallIds(calls: seq<ToolCall>): set<Option<string>>
  {
    set c | c in calls :: c.id
  }

  /** The ids the server waits for: those of the latest message with tool
      calls, or none. */
  function ExpectedIds(memory: seq<Message>): set<Option<string>>
  {
    if memory == [] then {}
    else if Calls(memory[|memory| - 1]) then CallIds(memory[|memory| - 1].toolCalls.value)
    else ExpectedIds(memory[..|memory| - 1])
  }

  /** The ids a frame's results answer: the truthy ones. */
  function ReceivedIds(es: seq<ResultEntry>): set<Option<string>>
  {
    set e | e in es && Truthy(e.toolCallId) :: e.toolCallId
  }

  /** The expected ids are those of the message at `k` when it is the
      latest with tool calls, and there are none when no message has any. */
  lemma {:induction false} ExpectedIdsLatest(memory: seq<Message>)
    ensures forall k :: 0 <= k < |memory| && Calls(memory[k]) && (forall j :: k < j < |memory| ==> !Calls(memory[j])) ==>
      ExpectedIds(memory) == CallIds(memory[k].toolCalls.value)
    ensures (forall k :: 0 <= k < |memory| ==> !Calls(memory[k])) ==> ExpectedIds(memory) == {}
  {
    if memory != [] {
      var init := memory[..|memory| - 1];
      ExpectedIdsLatest(init);
      forall k | 0 <= k < |memory| && Calls(memory[k]) && (forall j :: k < j < |memory| ==> !Calls(memory[j]))
        ensures ExpectedIds(memory) == CallIds(memory[k].toolCalls.value)
      {
        if k < |memory| - 1 {
          assert !Calls(memory[|memory| - 1]);
          assert init[k] == memory[k];
          assert forall j :: k < j < |init| ==> init[j] == memory[j];
        }
      }
      if forall k :: 0 <= k < |memory| ==> !Calls(memory[k]) {
        assert !Calls(memory[|memory| - 1]);
        assert forall k :: 0 <= k < |init| ==> init[k] == memory[k];
      }
    }
  }

  /** The search over `reversed(agent.memory)` for the latest message with
      tool calls, and the loop collecting its ids. */
  method LatestExpectedIds(memory: seq<Message>) returns (ids: set<Option<string>>)
    ensures ids == ExpectedIds(memory)
  {
    ids := {};
    var i := |memory|;
    assert memory[..i] == memory;
    while i > 0
      invariant 0 <= i <= |memory| && ExpectedIds(memory) == ExpectedIds(memory[..i])
    {
      var m := memory[i - 1];
      assert memory[..i][..i - 1] == memory[..i - 1];
      if m.role == "assistant" && m.toolCalls.Some? && m.toolCalls.value != [] {
        var calls := m.toolCalls.value;
        var j := 0;
        while j < |calls|
          invariant j <= |calls| && ids == CallIds(calls[..j])
        {
          assert calls[..j + 1] == calls[..j] + [calls[j]];
          ids := ids + {calls[j].id};
          j := j + 1;
        }
        assert calls[..j] == calls;
        return;
      }
      i := i - 1;
    }
  }

  // ---- set_api_keys ----

  /** The keys kept from a `keys` dict: its entries whose value is a
      string, a later entry for the same name replacing an earlier one. */
  function KeyMap(kvs: seq<(string, JsonValue)>): map<string, string>
  {
    if kvs == [] then map[]
    else
      var m := KeyMap(kvs[..|kvs| - 1]);
      var kv := kvs[|kvs| - 1];
      if kv.1.JStr? then m[kv.0 := kv.1.s] else m
  }

  /** The names of the kept keys, in the dict's order. The entries come
      from a decoded JSON object, whose names are distinct
      (`DistinctNames`); a repeated name would be listed once per entry,
      while `KeyMap` keeps its later value. */
  function Providers(kvs: seq<(string, JsonValue)>): seq<string>
  {
    if kvs == [] then []
    else Providers(kvs[..|kvs| - 1]) + (if kvs[|kvs| - 1].1.JStr? then [kvs[|kvs| - 1].0] else [])
  }

  /** A list of strings as Python prints it, for names without quotes or
      backslashes. */
  function PyList(names: seq<string>): string
  {
    "[" + Join(seq(|names|, i requires 0 <= i < |names| => "'" + names[i] + "'"), ", ") + "]"
  }

  /** The entries of a dict: no name occurs twice. */
  predicate DistinctNames(kvs: seq<(string, JsonValue)>)
  {
    forall i, j :: 0 <= i < j < |kvs| ==> kvs[i].0 != kvs[j].0
  }

  /** With a dict's distinct names, the kept keys are exactly the entries
      whose value is a string, with that value, and the names listed are
      exactly the kept keys. */
  lemma {:induction false} KeyMapExact(kvs: seq<(string, JsonValue)>)
    requires DistinctNames(kvs)
    ensures forall i :: 0 <= i < |kvs| && kvs[i].1.JStr? ==> kvs[i].0 in KeyMap(kvs) && KeyMap(kvs)[kvs[i].0] == kvs[i].1.s
    ensures forall k :: k in KeyMap(kvs) ==> exists i :: 0 <= i < |kvs| && kvs[i].0 == k && kvs[i].1.JStr?
    ensures forall k :: k in KeyMap(kvs) <==> k in Providers(kvs)
  {
    if kvs != [] {
      var init := kvs[..|kvs| - 1];
      var last := kvs[|kvs| - 1];
      assert DistinctNames(init);
      KeyMapExact(init);
      forall i | 0 <= i < |kvs| && kvs[i].1.JStr?
        ensures kvs[i].0 in KeyMap(kvs) && KeyMap(kvs)[kvs[i].0] == kvs[i].1.s
      {
        if i < |kvs| - 1 {
          assert init[i] == kvs[i];
          assert kvs[i].0 != last.0;
        }
      }
      forall k | k in KeyMap(kvs)
        ensures exists i :: 0 <= i < |kvs| && kvs[i].0 == k && kvs[i].1.JStr?
      {
        if !(last.1.JStr? && k == last.0) {
          assert k in KeyMap(init);
          var i :| 0 <= i < |init| && init[i].0 == k && init[i].1.JStr?;
          assert kvs[i] == init[i];
        }
      }
    }
  }

  // ---- Connection state ----

  /** One entry of `ACTIVE_CONNECTIONS`. */
  class Session {
    const chatId: string
    const agent: Agent.ChatAgent
    var totalCost: real
    var apiKeys: map<string, string>
    var stopRequested: bool

    /** The agent's memory still starts with its system message. */
    predicate Valid()
      reads this, agent
    {
      |agent.memory| > 0 && agent.memory[0] == Agent.SystemMessage
    }

    /** A new chat: an agent on the default model, no cost yet, no keys,
        no stop requested. */
    constructor(chatId: string)
      ensures this.chatId == chatId && fresh(agent) && Valid()
      ensures agent.modelName == Agent.DefaultModel && agent.pendingAskId == None
      ensures totalCost == 0.0 && apiKeys == map[] && !stopRequested
    {
      this.chatId := chatId;
      agent := new Agent.ChatAgent(Agent.DefaultModel);
      totalCost := 0.0;
      apiKeys := map[];
      stopRequested := false;
    }
  }

  /** `ACTIVE_CONNECTIONS`, by connection key. */
  class Registry {
    var active: map<string, Session>

    constructor()
      ensures active == map[]
    {
      active := map[];
    }
  }

  // ---- One step and its cost ----

  /** After a step: a cost adds to the session total and the new total is
      sent; no cost changes nothing. */
  predicate Charged(cost: Option<real>, total0: real, total: real, sent0: seq<OutFrame>, sent: seq<OutFrame>)
  {
    match cost
    case None => total == total0 && sent == sent0
    case Some(c) => total == total0 + c && sent == sent0 + [CostUpdateFrame(total)]
  }

  /** What `run_agent_step_and_send` did: with no fuel the recursion error,
      otherwise the step's trace relayed. */
  predicate StepRan(env: Env, fuel: nat, keys: Option<map<string, string>>, model: string, memory0: seq<Message>,
                    sent0: seq<OutFrame>, sent: seq<OutFrame>, memory: seq<Message>,
                    inbox0: seq<Inbound>, inbox: seq<Inbound>, ask0: Option<string>, ask: Option<string>,
                    finished: bool, cost: Option<real>)
  {
    if fuel == 0 then
      !finished && cost == None && sent == sent0 + [ErrorFrame(ProcessingErrorPrefix + RecursionLimit)] &&
      memory == memory0 && inbox == inbox0
    else
      Relayed(StepEvents(model, memory0, keys, env), env, sent0, sent, memory0, memory, inbox0, inbox, ask0, ask, finished, cost)
  }

  method Charge(session: Session, socket: Socket, cost: Option<real>)
    modifies session, socket
    ensures Charged(cost, old(session.totalCost), session.totalCost, old(socket.sent), socket.sent)
    ensures session.apiKeys == old(session.apiKeys) && session.stopRequested == old(session.stopRequested)
    ensures socket.inbox == old(socket.inbox) && socket.closedWith == old(socket.closedWith)
  {
    if cost.Some? {
      session.totalCost := session.totalCost + cost.value;
      socket.Send(CostUpdateFrame(session.totalCost));
    }
  }

  /** The agent step with the session's keys, then its cost. */
  method StepAndCharge(session: Session, socket: Socket, env: Env, fuel: nat)
    returns (finished: bool, cost: Option<real>, ghost stepSent: seq<OutFrame>)
    modifies session, session.agent, socket
    ensures session.apiKeys == old(session.apiKeys) && session.stopRequested == old(session.stopRequested)
    ensures session.agent.modelName == old(session.agent.modelName) && socket.closedWith == old(socket.closedWith)
    ensures Prefix(old(session.agent.memory), session.agent.memory) && Suffix(socket.inbox, old(socket.inbox))
    ensures Prefix(old(socket.sent), stepSent) && EndsTurn(stepSent, |old(socket.sent)|, finished)
    ensures StepRan(env, fuel, Some(old(session.apiKeys)), old(session.agent.modelName), old(session.agent.memory),
                    old(socket.sent), stepSent, session.agent.memory, old(socket.inbox), socket.inbox,
                    old(session.agent.pendingAskId), session.agent.pendingAskId, finished, cost)
    ensures Charged(cost, old(session.totalCost), session.totalCost, stepSent, socket.sent)
    ensures Prefix(old(socket.sent), socket.sent)
  {
    finished, cost := RunAgentStepAndSend(session.agent, socket, Some(session.apiKeys), env, fuel);
    stepSent := socket.sent;
    Charge(session, socket, cost);
    if cost.Some? {
      PrefixOfAppend(stepSent, [CostUpdateFrame(session.totalCost)]);
      PrefixTrans(old(socket.sent), stepSent, socket.sent);
    }
  }

  // ---- The frames ----

  /** The message of a `user_message` with text, and the pending id it
      clears. */
  method AddSessionInput(agent: Agent.ChatAgent, text: string, screenshot: Option<string>, context: Option<string>)
    modifies agent
    ensures agent.memory == old(agent.memory) + [SessionInput(text, screenshot, context, old(agent.pendingAskId))]
    ensures agent.pendingAskId == (if Truthy(old(agent.pendingAskId)) then None else old(agent.pendingAskId))
    ensures agent.modelName == old(agent.modelName)
  {
    if Truthy(agent.pendingAskId) {
      agent.AddMessageToMemory("tool", Some(Text(text)), None, agent.pendingAskId);
      agent.pendingAskId := None;
    } else {
      var content := text;
      if context.Some? && context.value != "" && Strip(context.value) != "" {
        content := "Based on this context:\n```\n" + context.value + "\n```\n\n" + text;
      }
      var parts := [TextPart(content)];
      if Truthy(screenshot) {
        parts := parts + [ImagePart(screenshot.value)];
      } else {
        assert parts == parts + [];
      }
      agent.AddMessageToMemory("user", Some(Parts(parts)), None, None);
    }
  }

  /** A `user_message` with text. `titled` is the title written for the
      chat, which happens only when the memory is empty. */
  method OnUserMessage(session: Session, socket: Socket, text: string, screenshot: Option<string>, context: Option<string>,
                       env: Env, fuel: nat)
    returns (titled: Option<string>, finished: bool, cost: Option<real>, ghost stepSent: seq<OutFrame>)
    modifies session, session.agent, socket
    ensures titled == (if |old(session.agent.memory)| == 0 then Some(Title(text)) else None)
    ensures session.apiKeys == old(session.apiKeys) && session.stopRequested == old(session.stopRequested)
    ensures session.agent.modelName == old(session.agent.modelName) && socket.closedWith == old(socket.closedWith)
    ensures Prefix(old(session.agent.memory), session.agent.memory) && Suffix(socket.inbox, old(socket.inbox))
    ensures Prefix(old(socket.sent), stepSent) && EndsTurn(stepSent, |old(socket.sent)|, finished)
    ensures StepRan(env, fuel, Some(old(session.apiKeys)), old(session.agent.modelName),
                    old(session.agent.memory) + [SessionInput(text, screenshot, context, old(session.agent.pendingAskId))],
                    old(socket.sent), stepSent, session.agent.memory, old(socket.inbox), socket.inbox,
                    if Truthy(old(session.agent.pendingAskId)) then None else old(session.agent.pendingAskId),
                    session.agent.pendingAskId, finished, cost)
    ensures Charged(cost, old(session.totalCost), session.totalCost, stepSent, socket.sent)
  {
    titled := None;
    if |session.agent.memory| == 0 {
      titled := Some(Title(text));
    }
    AddSessionInput(session.agent, text, screenshot, context);
    ghost var memoryHere := session.agent.memory;
    finished, cost, stepSent := StepAndCharge(session, socket, env, fuel);
    PrefixOfAppend(old(session.agent.memory), [SessionInput(text, screenshot, context, old(session.agent.pendingAskId))]);
    PrefixTrans(old(session.agent.memory), memoryHere, session.agent.memory);
  }

  /** The loop over a `tool_result` frame's entries: a tool message for
      each truthy id, and the set of those ids. */
  method AddResults(agent: Agent.ChatAgent, es: seq<ResultEntry>) returns (received: set<Option<string>>)
    modifies agent
    ensures agent.memory == old(agent.memory) + LegacyToolResults(es) && received == ReceivedIds(es)
    ensures agent.modelName == old(agent.modelName) && agent.pendingAskId == old(agent.pendingAskId)
  {
    received := {};
    var i := 0;
    while i < |es|
      invariant i <= |es| && agent.memory == old(agent.memory) + LegacyToolResults(es[..i])
      invariant received == ReceivedIds(es[..i])
      invariant agent.modelName == old(agent.modelName) && agent.pendingAskId == old(agent.pendingAskId)
    {
      assert es[..i + 1][..i] == es[..i];
      assert es[..i + 1] == es[..i] + [es[i]];
      if Truthy(es[i].toolCallId) {
        AppendAssoc(old(agent.memory), LegacyToolResults(es[..i]), [ToolMessage(es[i].toolCallId, es[i].content)]);
        agent.AddMessageToMemory("tool", Some(Text(es[i].content)), None, es[i].toolCallId);
        received := received + {es[i].toolCallId};
      }
      i := i + 1;
    }
    assert es[..i] == es;
  }

  /** A `tool_result` frame: rejected unless `results` is a non-empty list;
      otherwise its results go into memory, and the step runs only when
      every id the latest tool-calling message expects was received. */
  method OnToolResult(session: Session, socket: Socket, results: ResultsField, env: Env, fuel: nat)
    returns (ran: bool, finished: bool, cost: Option<real>, ghost stepSent: seq<OutFrame>)
    modifies session, session.agent, socket
    ensures session.apiKeys == old(session.apiKeys) && session.stopRequested == old(session.stopRequested)
    ensures session.agent.modelName == old(session.agent.modelName) && socket.closedWith == old(socket.closedWith)
    ensures Prefix(old(session.agent.memory), session.agent.memory) && Prefix(old(socket.sent), socket.sent)
    ensures Suffix(socket.inbox, old(socket.inbox))
    ensures !AcceptedResults(results) ==>
      !ran && socket.sent == old(socket.sent) + [ErrorFrame("Missing or invalid results in tool_result message")] &&
      session.agent.memory == old(session.agent.memory) && session.totalCost == old(session.totalCost) &&
      socket.inbox == old(socket.inbox)
    ensures AcceptedResults(results) ==>
      (ran <==> ExpectedIds(old(session.agent.memory)) <= ReceivedIds(results.entries))
    ensures AcceptedResults(results) && !ran ==>
      socket.sent == old(socket.sent) && session.agent.memory == old(session.agent.memory) + LegacyToolResults(results.entries) &&
      session.totalCost == old(session.totalCost) && socket.inbox == old(socket.inbox) &&
      session.agent.pendingAskId == old(session.agent.pendingAskId)
    ensures ran ==>
      Prefix(old(socket.sent), stepSent) && EndsTurn(stepSent, |old(socket.sent)|, finished) &&
      StepRan(env, fuel, Some(old(session.apiKeys)), old(session.agent.modelName),
              old(session.agent.memory) + LegacyToolResults(results.entries),
              old(socket.sent), stepSent, session.agent.memory, old(socket.inbox), socket.inbox,
              old(session.agent.pendingAskId), session.agent.pendingAskId, finished, cost) &&
      Charged(cost, old(session.totalCost), session.totalCost, stepSent, socket.sent)
  {
    ran, finished, cost, stepSent := false, false, None, socket.sent;
    PrefixOfAppend(socket.sent, []);
    PrefixOfAppend(session.agent.memory, []);
    if !(results.ResultsList? && results.entries != []) {
      socket.Send(ErrorFrame("Missing or invalid results in tool_result message"));
      PrefixOfAppend(old(socket.sent), [ErrorFrame("Missing or invalid results in tool_result message")]);
      return;
    }
    var expected := LatestExpectedIds(session.agent.memory);
    var received := AddResults(session.agent, results.entries);
    ghost var memoryHere := session.agent.memory;
    PrefixOfAppend(old(session.agent.memory), LegacyToolResults(results.entries));
    if !(expected <= received) {
      return;
    }
    ran := true;
    finished, cost, stepSent := StepAndCharge(session, socket, env, fuel);
    PrefixTrans(old(session.agent.memory), memoryHere, session.agent.memory);
  }

  /** A `user_response`: it needs a truthy request id and an answer; a
      pending question gets the answer, one already answered is left alone,
      and an unknown id is warned about. */
  method OnUserResponse(socket: Socket, questions: QuestionTable, key: string, requestId: Option<string>, answer: Option<string>)
    requires questions.Valid()
    modifies socket, questions
    ensures questions.Valid() && socket.inbox == old(socket.inbox) && socket.closedWith == old(socket.closedWith)
    ensures Prefix(old(socket.sent), socket.sent) && questions.table - {key} == old(questions.table) - {key}
    ensures !Truthy(requestId) || answer.None? ==>
      socket.sent == old(socket.sent) + [ErrorFrame("Missing request_id or answer in user_response")] &&
      questions.table == old(questions.table)
    ensures Truthy(requestId) && answer.Some? ==>
      var entries := Entries(old(questions.table), key);
      var rid := requestId.value;
      (rid in entries && entries[rid] == Pending ==>
         questions.table == old(questions.table)[key := entries[rid := Done(answer.value)]] && socket.sent == old(socket.sent)) &&
      (rid in entries && entries[rid] != Pending ==> questions.table == old(questions.table) && socket.sent == old(socket.sent)) &&
      (rid !in entries ==>
         questions.table == old(questions.table) &&
         socket.sent == old(socket.sent) + [WarningFrame("Received response for unknown or expired request ID " + rid + ".")])
  {
    PrefixOfAppend(socket.sent, []);
    if !Truthy(requestId) || answer.None? {
      socket.Send(ErrorFrame("Missing request_id or answer in user_response"));
      PrefixOfAppend(old(socket.sent), [ErrorFrame("Missing request_id or answer in user_response")]);
      return;
    }
    var r := questions.Resolve(key, requestId.value, answer.value);
    if r == UnknownRequest {
      var w := WarningFrame("Received response for unknown or expired request ID " + requestId.value + ".");
      socket.Send(w);
      PrefixOfAppend(old(socket.sent), [w]);
    }
  }

  /** An `audio_input` frame: the transcription goes back as its own
      frame, and a failure as an error. */
  method OnAudioInput(socket: Socket, audioData: Option<string>, format: string, transcribe: (string, string) -> Transcribed)
    modifies socket
    ensures socket.inbox == old(socket.inbox) && socket.closedWith == old(socket.closedWith)
    ensures Prefix(old(socket.sent), socket.sent)
    ensures !Truthy(audioData) ==> socket.sent == old(socket.sent) + [ErrorFrame("Missing audio_data in audio_input message")]
    ensures Truthy(audioData) ==>
      socket.sent == old(socket.sent) +
        [match transcribe(audioData.value, format)
         case Transcript(t) => TranscriptionFrame(t)
         case HttpFailure(d) => ErrorFrame("Transcription Error: " + d)
         case Failure(m) => ErrorFrame("Unexpected transcription error: " + m)]
  {
    var reply: OutFrame;
    if !Truthy(audioData) {
      reply := ErrorFrame("Missing audio_data in audio_input message");
    } else {
      match transcribe(audioData.value, format) {
        case Transcript(t) =>
          reply := TranscriptionFrame(t);
        case HttpFailure(d) =>
          reply := ErrorFrame("Transcription Error: " + d);
        case Failure(m) =>
          reply := ErrorFrame("Unexpected transcription error: " + m);
      }
    }
    socket.Send(reply);
    PrefixOfAppend(old(socket.sent), [reply]);
  }

  /** A `user_message` as the receive loop relies on it. */
  method UserMessageTurn(session: Session, socket: Socket, text: string, screenshot: Option<string>, context: Option<string>,
                         env: Env, fuel: nat)
    returns (titled: Option<string>)
    requires session.Valid()
    modifies session, session.agent, socket
    ensures session.Valid() && titled == None
    ensures session.apiKeys == old(session.apiKeys) && session.stopRequested == old(session.stopRequested)
    ensures session.agent.modelName == old(session.agent.modelName) && socket.closedWith == old(socket.closedWith)
    ensures Suffix(socket.inbox, old(socket.inbox)) && Prefix(old(socket.sent), socket.sent)
  {
    var finished, cost;
    ghost var stepSent;
    titled, finished, cost, stepSent := OnUserMessage(session, socket, text, screenshot, context, env, fuel);
    assert session.agent.memory[..|old(session.agent.memory)|] == old(session.agent.memory);
  }

  /** A `tool_result` as the receive loop relies on it. */
  method ToolResultTurn(session: Session, socket: Socket, results: ResultsField, env: Env, fuel: nat)
    requires session.Valid()
    modifies session, session.agent, socket
    ensures session.Valid()
    ensures session.apiKeys == old(session.apiKeys) && session.stopRequested == old(session.stopRequested)
    ensures session.agent.modelName == old(session.agent.modelName) && socket.closedWith == old(socket.closedWith)
    ensures Suffix(socket.inbox, old(socket.inbox)) && Prefix(old(socket.sent), socket.sent)
    ensures !AcceptedResults(results) ==>
      socket.sent == old(socket.sent) + [ErrorFrame("Missing or invalid results in tool_result message")] &&
      session.agent.memory == old(session.agent.memory)
  {
    var ran, _, _, stepSent := OnToolResult(session, socket, results, env, fuel);
    assert session.agent.memory[..|old(session.agent.memory)|] == old(session.agent.memory);
  }

  /** The `type` field of a frame no branch handles. */
  function UnknownTypeName(f: Inbound): string
  {
    match f
    case OtherType(kind) => Show(kind)
    case _ => ""
  }

  /** A `set_llm_model` frame: a truthy model name is taken, anything
      else is an error. */
  method OnSetModel(agent: Agent.ChatAgent, socket: Socket, modelName: Option<string>)
    modifies agent, socket
    ensures agent.memory == old(agent.memory) && agent.pendingAskId == old(agent.pendingAskId)
    ensures socket.inbox == old(socket.inbox) && socket.closedWith == old(socket.closedWith)
    ensures Prefix(old(socket.sent), socket.sent)
    ensures Truthy(modelName) ==> agent.modelName == modelName.value && socket.sent == old(socket.sent)
    ensures !Truthy(modelName) ==>
      agent.modelName == old(agent.modelName) &&
      socket.sent == old(socket.sent) + [ErrorFrame("Invalid or missing model_name in set_llm_model message")]
  {
    PrefixOfAppend(socket.sent, []);
    if Truthy(modelName) {
      agent.SetModel(modelName.value);
    } else {
      socket.Send(ErrorFrame("Invalid or missing model_name in set_llm_model message"));
      PrefixOfAppend(old(socket.sent), [ErrorFrame("Invalid or missing model_name in set_llm_model message")]);
    }
  }

  /** A `set_api_keys` frame: a dict replaces the session's keys with its
      string entries and the names are echoed; anything else is an error
      and the keys stay. */
  method OnSetApiKeys(session: Session, socket: Socket, keys: Option<seq<(string, JsonValue)>>)
    modifies session, socket
    ensures session.totalCost == old(session.totalCost) && session.stopRequested == old(session.stopRequested)
    ensures socket.inbox == old(socket.inbox) && socket.closedWith == old(socket.closedWith)
    ensures Prefix(old(socket.sent), socket.sent)
    ensures keys.Some? ==>
      session.apiKeys == KeyMap(keys.value) &&
      socket.sent == old(socket.sent) + [InfoFrame("API keys received for providers: " + PyList(Providers(keys.value)))]
    ensures keys.None? ==>
      session.apiKeys == old(session.apiKeys) &&
      socket.sent == old(socket.sent) + [ErrorFrame("Invalid or missing 'keys' dictionary in set_api_keys message")]
  {
    var reply := ErrorFrame("Invalid or missing 'keys' dictionary in set_api_keys message");
    if keys.Some? {
      session.apiKeys := KeyMap(keys.value);
      reply := InfoFrame("API keys received for providers: " + PyList(Providers(keys.value)));
    }
    socket.Send(reply);
    PrefixOfAppend(old(socket.sent), [reply]);
  }

  /** A `stop` frame: the flag is raised, acknowledged and lowered again,
      so no step ever sees it. */
  method OnStop(session: Session, socket: Socket)
    modifies session, socket
    ensures !session.stopRequested && socket.sent == old(socket.sent) + [InfoFrame("Stop request received")]
    ensures Prefix(old(socket.sent), socket.sent)
    ensures session.totalCost == old(session.totalCost) && session.apiKeys == old(session.apiKeys)
    ensures socket.inbox == old(socket.inbox) && socket.closedWith == old(socket.closedWith)
  {
    session.stopRequested := true;
    socket.Send(InfoFrame("Stop request received"));
    PrefixOfAppend(old(socket.sent), [InfoFrame("Stop request received")]);
    session.stopRequested := false;
  }

  /** One frame of the receive loop: each type goes to its branch; invalid
      JSON and an unknown type are errors. A chat's title is never written
      here, as the agent's memory always holds its system message; the
      question table changes only under this connection's key. */
  method HandleFrame(session: Session, socket: Socket, questions: QuestionTable, key: string, f: Inbound, env: ServerEnv, fuel: nat)
    returns (titled: Option<string>)
    requires session.Valid() && questions.Valid() && !session.stopRequested
    modifies session, session.agent, socket, questions
    ensures session.Valid() && questions.Valid() && titled == None && !session.stopRequested
    ensures socket.closedWith == old(socket.closedWith) && Suffix(socket.inbox, old(socket.inbox))
    ensures Prefix(old(socket.sent), socket.sent)
    ensures questions.table - {key} == old(questions.table) - {key}
    ensures f.Malformed? ==> socket.sent == old(socket.sent) + [ErrorFrame("Invalid JSON received")]
    ensures f.OtherType? ==> socket.sent == old(socket.sent) + [ErrorFrame("Invalid message type received: " + Show(f.kind))]
  {
    titled := None;
    PrefixOfAppend(socket.sent, []);
    match f {
      case Malformed =>
        socket.Send(ErrorFrame("Invalid JSON received"));
        PrefixOfAppend(old(socket.sent), [ErrorFrame("Invalid JSON received")]);
      case UserMessage(text, screenshot, context) =>
        if !Truthy(text) {
          socket.Send(ErrorFrame("Missing text in user_message"));
          PrefixOfAppend(old(socket.sent), [ErrorFrame("Missing text in user_message")]);
        } else {
          titled := UserMessageTurn(session, socket, text.value, screenshot, context, env.step, fuel);
        }
      case ToolResult(results) =>
        ToolResultTurn(session, socket, results, env.step, fuel);
      case UserResponse(requestId, answer) =>
        OnUserResponse(socket, questions, key, requestId, answer);
      case SetLlmModel(modelName) =>
        OnSetModel(session.agent, socket, modelName);
      case SetApiKeys(keys) =>
        OnSetApiKeys(session, socket, keys);
      case AudioInput(audioData, format) =>
        OnAudioInput(socket, audioData, format, env.transcribe);
      case StopRequest =>
        OnStop(session, socket);
      case OtherType(kind) =>
        socket.Send(ErrorFrame("Invalid message type received: " + Show(kind)));
        PrefixOfAppend(old(socket.sent), [ErrorFrame("Invalid message type received: " + Show(kind))]);
    }
  }

  /** `websocket_endpoint`: a missing `chat_id` or one that is not a UUID
      is refused with an error and close code 1008; a session that cannot
      be set up with an error and 1011; otherwise the connection is
      registered, every frame is handled until the client is gone, and
      then its entry leaves `ACTIVE_CONNECTIONS` and its pending questions
      are cancelled and dropped. */
  method Endpoint(socket: Socket, registry: Registry, questions: QuestionTable, key: string, chatId: Option<string>,
                  dbFailed: bool, env: ServerEnv, fuel: nat)
    returns (session: Session?)
    requires questions.Valid()
    modifies socket, registry, questions
    ensures questions.Valid()
    ensures !Truthy(chatId) ==>
      session == null && socket.sent == old(socket.sent) + [ErrorFrame(ChatIdRequired)] &&
      socket.closedWith == Some(PolicyViolation) && socket.inbox == old(socket.inbox) &&
      registry.active == old(registry.active) && questions.table == old(questions.table)
    ensures Truthy(chatId) && !env.uuidValid(chatId.value) ==>
      session == null && socket.sent == old(socket.sent) + [ErrorFrame(ChatIdInvalid)] &&
      socket.closedWith == Some(PolicyViolation) && socket.inbox == old(socket.inbox) &&
      registry.active == old(registry.active) && questions.table == old(questions.table)
    ensures Truthy(chatId) && env.uuidValid(chatId.value) && dbFailed ==>
      session == null && socket.sent == old(socket.sent) + [ErrorFrame(SessionFailed)] &&
      socket.closedWith == Some(InternalError) && socket.inbox == old(socket.inbox) &&
      registry.active == old(registry.active) && questions.table == old(questions.table)
    ensures Truthy(chatId) && env.uuidValid(chatId.value) && !dbFailed ==>
      session != null && fresh(session) && session.chatId == chatId.value && session.Valid() &&
      socket.inbox == [] && socket.closedWith == old(socket.closedWith) && Prefix(old(socket.sent), socket.sent) &&
      registry.active == old(registry.active) - {key} && questions.table == old(questions.table) - {key}
  {
    if !Truthy(chatId) {
      socket.Send(ErrorFrame(ChatIdRequired));
      socket.Close(PolicyViolation);
      return null;
    }
    if !env.uuidValid(chatId.value) {
      socket.Send(ErrorFrame(ChatIdInvalid));
      socket.Close(PolicyViolation);
      return null;
    }
    if dbFailed {
      socket.Send(ErrorFrame(SessionFailed));
      socket.Close(InternalError);
      return null;
    }
    session := new Session(chatId.value);
    registry.active := registry.active[key := session];
    PrefixOfAppend(socket.sent, []);
    while socket.inbox != []
      invariant fresh(session) && fresh(session.agent) && session.chatId == chatId.value
      invariant session.Valid() && !session.stopRequested
      invariant registry.active == old(registry.active)[key := session]
      invariant questions.Valid() && questions.table - {key} == old(questions.table) - {key}
      invariant socket.closedWith == old(socket.closedWith) && Prefix(old(socket.sent), socket.sent)
      decreases |socket.inbox|
    {
      ghost var sentHere := socket.sent;
      ghost var tableHere := questions.table;
      var f := socket.Receive();
      var _ := HandleFrame(session, socket, questions, key, f.value, env, fuel);
      PrefixTrans(old(socket.sent), sentHere, socket.sent);
      assert questions.table - {key} == tableHere - {key};
    }
    if key in registry.active {
      registry.active := registry.active - {key};
    }
    var _ := questions.CancelAll(key);
  }
}
