/** The data the backend passes around: chat messages in the OpenAI format
    kept in an agent's memory, the items of an LLM response stream, what an
    agent step yields, and the websocket frames in both directions. JSON
    encoding is not modelled: frames are values of these datatypes. */
module Protocol {
  import opened Common

  /** One entry of a user message's content list. */
  datatype Part = TextPart(text: string) | ImagePart(url: string)

  /** A message's `content`: plain text or a list of parts. */
  datatype Content = Text(text: string) | Parts(parts: seq<Part>)

  /** A tool call `{"id", "type", "function": {"name", "arguments"}}`;
      `kind` is the `type` key, `arguments` the JSON-encoded argument string. */
  datatype ToolCall = ToolCall(id: Option<string>, kind: string, name: string, arguments: string)

  /** A memory entry. The optional keys are `None` when the dict lacks them. */
  datatype Message = Message(role: string, content: Option<Content>, toolCalls: Option<seq<ToolCall>>, toolCallId: Option<string>)

  /** The dict `add_message_to_memory` builds: `content`, `tool_calls` and
      `tool_call_id` are present exactly when given, except that a tool
      result given without content gets the empty string as content. */
  function NewMessage(role: string, content: Option<Content>, toolCalls: Option<seq<ToolCall>>, toolCallId: Option<string>): (m: Message)
    ensures m.role == role && m.toolCalls == toolCalls && m.toolCallId == toolCallId
    ensures m.content.Some? <==> content.Some? || toolCallId.Some?
    ensures content.Some? ==> m.content == content
    ensures content.None? && toolCallId.Some? ==> m.content == Some(Text(""))
  {
    var c := if content.None? && toolCallId.Some? then Some(Text("")) else content;
    Message(role, c, toolCalls, toolCallId)
  }

  /** A message `add_message_to_memory` stores as it is given: it has
      content, or it is not a tool result. */
  predicate Shaped(m: Message)
  {
    m.content.Some? || m.toolCallId.None?
  }

  /** Passing a shaped message's fields to `add_message_to_memory` stores
      that very message. */
  lemma ShapedStored(m: Message)
    requires Shaped(m)
    ensures NewMessage(m.role, m.content, m.toolCalls, m.toolCallId) == m
  {
  }

  /** `str(x)` of an optional string, as an f-string prints it. */
  function Show(s: Option<string>): string
  {
    if s.Some? then s.value else "None"
  }

  // ---- The LLM response stream ----

  /** One tool-call fragment of a streamed delta. An absent name or
      argument string is the empty string. */
  datatype Fragment = Fragment(index: int, id: Option<string>, name: string, arguments: string)

  /** The first choice of a chunk: its finish reason, its content delta
      (empty when absent) and its tool-call fragments. */
  datatype Choice = Choice(finishReason: Option<string>, content: string, fragments: seq<Fragment>)

  /** A streamed chunk; `None` when it carries no choices. */
  datatype Chunk = Chunk(choice: Option<Choice>)

  /** What `get_llm_response_stream` yields: chunks, an error dict, or
      the `("final_cost", x)` tuple. */
  datatype StreamItem = ChunkItem(chunk: Chunk) | ErrorItem(content: string) | CostItem(cost: real)

  // ---- What an agent step yields and does ----

  /** The items `ChatAgent.step` yields: a text delta, a tool-call request
      dict, an error dict, or the final cost tuple. */
  datatype Yielded = TextOut(text: string) | RequestOut(calls: seq<ToolCall>) | ErrorOut(content: string) | CostOut(cost: real)

  /** The observable behaviour of a step generator, in order: a yield, or a
      message appended to the agent's memory. */
  datatype StepEvent = Emit(item: Yielded) | Remember(msg: Message)

  /** What a step yields, in order. */
  function Emitted(events: seq<StepEvent>): seq<Yielded>
  {
    EmittedUpTo(events, |events|)
  }

  /** What the first `n` events yield. */
  function EmittedUpTo(events: seq<StepEvent>, n: nat): seq<Yielded>
    requires n <= |events|
  {
    if n == 0 then []
    else EmittedUpTo(events, n - 1) + (if events[n - 1].Emit? then [events[n - 1].item] else [])
  }

  /** What a step appends to memory, in order. */
  function Remembered(events: seq<StepEvent>): seq<Message>
  {
    RememberedUpTo(events, |events|)
  }

  /** What the first `n` events append to memory. */
  function RememberedUpTo(events: seq<StepEvent>, n: nat): seq<Message>
    requires n <= |events|
  {
    if n == 0 then []
    else RememberedUpTo(events, n - 1) + (if events[n - 1].Remember? then [events[n - 1].msg] else [])
  }

  /** Later events do not change what earlier ones yield or append. */
  lemma {:induction false} UpToFrame(a: seq<StepEvent>, b: seq<StepEvent>, n: nat)
    requires n <= |a|
    ensures EmittedUpTo(a + b, n) == EmittedUpTo(a, n) && RememberedUpTo(a + b, n) == RememberedUpTo(a, n)
  {
    if n > 0 {
      UpToFrame(a, b, n - 1);
      assert (a + b)[n - 1] == a[n - 1];
    }
  }

  /** What the first `|a| + k` events of `a + b` yield and append. */
  lemma {:induction false} UpToAppend(a: seq<StepEvent>, b: seq<StepEvent>, k: nat)
    requires k <= |b|
    ensures EmittedUpTo(a + b, |a| + k) == Emitted(a) + EmittedUpTo(b, k)
    ensures RememberedUpTo(a + b, |a| + k) == Remembered(a) + RememberedUpTo(b, k)
  {
    if k == 0 {
      UpToFrame(a, b, |a|);
    } else {
      UpToAppend(a, b, k - 1);
      assert (a + b)[|a| + k - 1] == b[k - 1];
    }
  }

  /** One more event: an `Emit` adds to what is yielded, a `Remember` to
      what is appended to memory. */
  lemma {:induction false} EventSnoc(a: seq<StepEvent>, e: StepEvent)
    ensures Emitted(a + [e]) == Emitted(a) + (if e.Emit? then [e.item] else [])
    ensures Remembered(a + [e]) == Remembered(a) + (if e.Remember? then [e.msg] else [])
  {
    UpToFrame(a, [e], |a|);
    assert (a + [e])[|a|] == e;
  }

  /** Yields and appends of two runs one after the other. */
  lemma {:induction false} EmittedAppend(a: seq<StepEvent>, b: seq<StepEvent>)
    ensures Emitted(a + b) == Emitted(a) + Emitted(b)
    ensures Remembered(a + b) == Remembered(a) + Remembered(b)
  {
    UpToAppend(a, b, |b|);
  }

  /** A run with no events appends nothing. */
  lemma {:induction false} RememberedNone()
    ensures Remembered([]) == []
  {
  }

  /** A single yield appends nothing and yields its item. */
  lemma {:induction false} YieldOnly(y: Yielded)
    ensures Remembered([Emit(y)]) == [] && Emitted([Emit(y)]) == [y]
  {
    EventSnoc([], Emit(y));
    assert [] + [Emit(y)] == [Emit(y)];
  }

  /** A run of yields, a decision and a final yield, regrouped: only the
      decision reaches memory. */
  lemma {:induction false} Regrouped(shown: seq<StepEvent>, halted: seq<StepEvent>, decided: seq<StepEvent>, tail: seq<StepEvent>)
    requires Remembered(shown) == [] && Remembered(halted) == [] && Remembered(tail) == []
    ensures (shown + halted) + (decided + tail) == shown + (halted + decided) + tail
    ensures Remembered((shown + halted) + (decided + tail)) == Remembered(decided)
  {
    AppendAssoc(shown, halted, decided + tail);
    AppendAssoc(halted, decided, tail);
    AppendAssoc(shown, halted + decided, tail);
    EmittedAppend(shown, halted);
    EmittedAppend(decided, tail);
    EmittedAppend(shown + halted, decided + tail);
  }

  // ---- Websocket frames ----

  /** Frames the backend sends. */
  datatype OutFrame =
    | ChunkFrame(content: string)
    | EndFrame
    | ErrorFrame(content: string)
    | WarningFrame(content: string)
    | InfoFrame(content: string)
    | ToolCallRequestFrame(calls: seq<ToolCall>)
    | AskUserRequestFrame(question: string)
    | TerminateRequestFrame(reason: string)
    | CostUpdateFrame(totalCost: real)
    | AgentQuestionFrame(requestId: string, question: string)
    | TranscriptionFrame(text: string)

  /** One entry of a `tool_result` frame's `results` list: its
      `tool_call_id` (`None` when missing) and its `content` passed through
      `str` (the empty string when missing). */
  datatype ResultEntry = ResultEntry(toolCallId: Option<string>, content: string)

  /** The `results` field of a `tool_result` frame: missing, a list of
      entries, or a value whose iteration raises at once (`null`, a number,
      a non-empty string or dict; an empty one reads as an empty list). */
  datatype ResultsField = ResultsMissing | ResultsList(entries: seq<ResultEntry>) | ResultsNotList

  /** A JSON value, seen only as "a string or something else". */
  datatype JsonValue = JStr(s: string) | JOther

  /** Frames the backend receives, after `json.loads`. A string field that
      is missing or not a string is `None`; `keys` is `None` when it is not
      a dict, and otherwise lists the dict's entries in order; an
      `audio_input` frame's `format` is "webm" when missing. */
  datatype Inbound =
    | Malformed
    | UserMessage(text: Option<string>, screenshot: Option<string>, context: Option<string>)
    | ToolResult(results: ResultsField)
    | UserResponse(requestId: Option<string>, answer: Option<string>)
    | SetLlmModel(modelName: Option<string>)
    | SetApiKeys(keys: Option<seq<(string, JsonValue)>>)
    | StopRequest
    | AudioInput(audioData: Option<string>, format: string)
    | OtherType(kind: Option<string>)
}
