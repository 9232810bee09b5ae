/** `ChatAgent`: the conversation memory sent to the LLM and the step that
    turns one streamed LLM response into yields and memory appends. */
module Agent {
  import opened Common
  import opened Protocol
  import opened ToolAccumulator
  import opened Llm
  import opened AgentStream

  const DefaultModel: string := "gpt-4.1-mini"

  /** The fixed system prompt; its wording is not part of this model. */
  const SystemPrompt: string

  const SystemMessage: Message := Message("system", Some(Text(SystemPrompt)), None, None)

  class ChatAgent {
    var modelName: string
    var memory: seq<Message>
    /** The id of an `ask_user` call still waiting for the user's answer. */
    var pendingAskId: Option<string>

    /** A fresh agent: the given model, memory holding only the system
        message, no pending question. */
    constructor(modelName: string)
      ensures this.modelName == modelName && memory == [SystemMessage] && pendingAskId == None
    {
      this.modelName := modelName;
      memory := [];
      pendingAskId := None;
      new;
      memory := memory + [SystemMessage];
    }

    method SetModel(name: string)
      modifies this
      ensures modelName == name && memory == old(memory) && pendingAskId == old(pendingAskId)
    {
      modelName := name;
    }

    /** Appends exactly one message, built by the shape rules of
        `NewMessage`, and changes nothing else. */
    method AddMessageToMemory(role: string, content: Option<Content>, toolCalls: Option<seq<ToolCall>>, toolCallId: Option<string>)
      modifies this
      ensures memory == old(memory) + [NewMessage(role, content, toolCalls, toolCallId)]
      ensures modelName == old(modelName) && pendingAskId == old(pendingAskId)
    {
      var c := content;
      if toolCallId.Some? && content.None? {
        c := Some(Text(""));
      }
      memory := memory + [Message(role, c, toolCalls, toolCallId)];
    }

    /** One step over the response to the current memory, run to the end:
        it yields and appends exactly what `StepTrace` says, in that order.
        `stop[k]` is the connection's stop flag as item `k` arrives. */
    method Step(keys: Option<map<string, string>>, provider: StreamRequest -> ProviderRun, stop: seq<bool>,
                parse: string -> JsonView, hash: string -> int)
      returns (events: seq<StepEvent>)
      modifies this
      ensures modelName == old(modelName) && pendingAskId == old(pendingAskId)
      ensures events == StepTrace(modelName, ResponseItems(modelName, provider(BuildRequest(modelName, old(memory), None, keys))),
                                  stop, parse, hash)
      ensures memory == old(memory) + Remembered(events)
    {
      var items := GetLlmResponseStream(modelName, memory, None, keys, provider);
      var ollama := StartsWith(modelName, "ollama/");
      var h, content, buffered, looksJson, captured, progress, cost, errorYielded;
      h, content, buffered, looksJson, captured, progress, cost, errorYielded, events := ReadStream(items, stop, ollama);
      var decided: seq<StepEvent> := [];
      if !errorYielded {
        decided := Finalize(ollama, content, buffered, looksJson, captured, progress, parse, hash);
      } else {
        RememberedNone();
        AppendEmpty(memory);
      }
      TraceAssembled(modelName, items, stop, parse, hash, h, content, buffered, looksJson, captured, progress, cost,
                     errorYielded, events, decided);
      events := events + (decided + CostTail(cost));
    }

    /** The finish-reason decision, taken once the stream loop is over. */
    method Finalize(ollama: bool, content: string, buffered: string, looksJson: bool, captured: Option<string>,
                    progress: Progress, parse: string -> JsonView, hash: string -> int)
      returns (fin: seq<StepEvent>)
      requires Keyed(progress)
      modifies this
      ensures fin == Finish(ollama, content, buffered, looksJson, captured, progress, parse, hash)
      ensures memory == old(memory) + Remembered(fin)
      ensures modelName == old(modelName) && pendingAskId == old(pendingAskId)
    {
      if captured == Some("tool_calls") && progress.calls != map[] {
        fin := FinishToolCalls(Values(progress));
      } else if captured == Some("stop") {
        fin := FinishStop(ollama, content, buffered, looksJson, parse, hash);
      } else {
        fin := FinishOther(content, captured);
      }
    }

    /** Finish reason "tool_calls" with calls accumulated. */
    method FinishToolCalls(finalCalls: seq<ToolCall>) returns (fin: seq<StepEvent>)
      modifies this
      ensures fin == ToolCallsOutcome(finalCalls)
      ensures memory == old(memory) + Remembered(fin)
      ensures modelName == old(modelName) && pendingAskId == old(pendingAskId)
    {
      fin := [];
      var valid := ValidCalls(finalCalls);
      if valid != [] {
        AddMessageToMemory("assistant", None, Some(valid), None);
        EventSnoc(fin, Remember(AssistantCalls(valid)));
        fin := fin + [Remember(AssistantCalls(valid))];
        EventSnoc(fin, Emit(RequestOut(valid)));
        fin := fin + [Emit(RequestOut(valid))];
      } else {
        AddMessageToMemory("assistant", Some(Text(InconsistentState)), None, None);
        EventSnoc(fin, Remember(AssistantText(InconsistentState)));
        fin := fin + [Remember(AssistantText(InconsistentState))];
        EventSnoc(fin, Emit(ErrorOut(InconsistentDetected)));
        fin := fin + [Emit(ErrorOut(InconsistentDetected))];
      }
    }

    /** Finish reason "stop": the response is read as a tool call when it
        parses to an object with a truthy `name` and an `arguments` dict. */
    method FinishStop(ollama: bool, content: string, buffered: string, looksJson: bool,
                      parse: string -> JsonView, hash: string -> int)
      returns (fin: seq<StepEvent>)
      modifies this
      ensures fin == StopOutcome(ollama, content, buffered, looksJson, parse, hash)
      ensures memory == old(memory) + Remembered(fin)
      ensures modelName == old(modelName) && pendingAskId == old(pendingAskId)
    {
      var call: Option<ToolCall> := None;
      if content != "" {
        var parsed := parse(Strip(content));
        if parsed.Object? && Truthy(parsed.name) && parsed.args.ArgsDict? {
          var name := parsed.name.value;
          call := Some(ToolCall(Some("tool_" + name + "_" + NatToString(Abs(hash(parsed.args.repr)) % 10000)),
                                "function", name, parsed.args.dumped));
        }
      }
      assert call == Reinterpret(content, parse, hash);
      fin := StopWith(call, ollama, content, buffered, looksJson);
    }

    /** Finish reason "stop" once the response has been read as `call`. */
    method StopWith(call: Option<ToolCall>, ollama: bool, content: string, buffered: string, looksJson: bool)
      returns (fin: seq<StepEvent>)
      modifies this
      ensures fin == StopEvents(call, ollama, content, buffered, looksJson)
      ensures memory == old(memory) + Remembered(fin)
      ensures modelName == old(modelName) && pendingAskId == old(pendingAskId)
    {
      fin := [];
      if call.Some? {
        AddMessageToMemory("assistant", None, Some([call.value]), None);
        EventSnoc(fin, Remember(AssistantCalls([call.value])));
        fin := fin + [Remember(AssistantCalls([call.value]))];
        EventSnoc(fin, Emit(RequestOut([call.value])));
        fin := fin + [Emit(RequestOut([call.value]))];
      }
      if call.None? && ollama && looksJson {
        EventSnoc(fin, Emit(TextOut(buffered)));
        fin := fin + [Emit(TextOut(buffered))];
      }
      var text: Option<Content> := if content != "" then Some(Text(content)) else None;
      AddMessageToMemory("assistant", text, None, None);
      EventSnoc(fin, Remember(NewMessage("assistant", text, None, None)));
      fin := fin + [Remember(NewMessage("assistant", text, None, None))];
    }

    /** Any other finish reason. */
    method FinishOther(content: string, captured: Option<string>) returns (fin: seq<StepEvent>)
      modifies this
      ensures fin == OtherOutcome(content, captured)
      ensures memory == old(memory) + Remembered(fin)
      ensures modelName == old(modelName) && pendingAskId == old(pendingAskId)
    {
      fin := [];
      var text := if content != "" then Incomplete(content, captured) else Unexpected(captured);
      AddMessageToMemory("assistant", Some(Text(text)), None, None);
      EventSnoc(fin, Remember(AssistantText(text)));
      fin := fin + [Remember(AssistantText(text))];
      EventSnoc(fin, Emit(ErrorOut(Unexpected(captured))));
      fin := fin + [Emit(ErrorOut(Unexpected(captured)))];
    }
  }

  /** The stream loop of `step`: consumes items until the end, a stop flag
      or an error dict, collecting the text (and, for an Ollama model, the
      buffer and whether it looks like JSON), the tool-call fragments, the
      last truthy finish reason and the last cost, and yielding the deltas
      and the error dict as they come. */
  method ReadStream(items: seq<StreamItem>, stop: seq<bool>, ollama: bool)
    returns (h: nat, content: string, buffered: string, looksJson: bool, captured: Option<string>,
             progress: Progress, cost: Option<real>, errorYielded: bool, events: seq<StepEvent>)
    ensures h == Halt(items, stop) && errorYielded == ErrorHalt(items, stop)
    ensures var ds := Deltas(items, h);
      content == Concat(ds, |ds|) &&
      events == TextEvents(ds, ShownCount(ollama, ds)) + (if errorYielded then [Emit(ErrorOut(items[h].content))] else [])
    ensures buffered == (if ollama then content else "") && looksJson == (ollama && LooksJson(content))
    ensures captured == LastReason(items, h) && cost == LastCost(items, h)
    ensures progress == AddAll(Empty, Fragments(items, h)) && Keyed(progress)
  {
    content := "";
    buffered := "";
    looksJson := false;
    progress := Empty;
    errorYielded := false;
    captured := None;
    cost := None;
    events := [];
    var i := 0;
    while i < |items|
      invariant StreamSoFar(items, stop, ollama, i, content, buffered, looksJson, captured, progress, cost, events)
    {
      if StopAt(stop, i) {
        break;
      }
      if items[i].ErrorItem? {
        events := events + [Emit(ErrorOut(items[i].content))];
        errorYielded := true;
        break;
      }
      content, buffered, looksJson, captured, progress, cost, events :=
        ReadItem(items, stop, ollama, i, content, buffered, looksJson, captured, progress, cost, events);
      i := i + 1;
    }
    h := i;
    HaltAt(items, stop, i);
    Accumulated(Fragments(items, i));
  }

  /** What the stream loop holds after the first `i` items. */
  ghost predicate StreamSoFar(items: seq<StreamItem>, stop: seq<bool>, ollama: bool, i: nat, content: string,
                              buffered: string, looksJson: bool, captured: Option<string>, progress: Progress,
                              cost: Option<real>, events: seq<StepEvent>)
  {
    i <= |items| && Live(items, stop, i) &&
    var ds := Deltas(items, i);
    content == Concat(ds, |ds|) &&
    (ollama ==> buffered == content && looksJson == LooksJson(content)) &&
    (!ollama ==> buffered == "" && !looksJson) &&
    progress == AddAll(Empty, Fragments(items, i)) &&
    captured == LastReason(items, i) && cost == LastCost(items, i) &&
    events == TextEvents(ds, ShownCount(ollama, ds))
  }

  /** One turn of the stream loop, on an item `i` that neither carries a
      stop flag nor is an error dict. */
  method ReadItem(items: seq<StreamItem>, stop: seq<bool>, ollama: bool, i: nat, content: string,
                  buffered: string, looksJson: bool, captured: Option<string>, progress: Progress,
                  cost: Option<real>, events: seq<StepEvent>)
    returns (content': string, buffered': string, looksJson': bool, captured': Option<string>, progress': Progress,
             cost': Option<real>, events': seq<StepEvent>)
    requires i < |items| && !StopAt(stop, i) && !items[i].ErrorItem?
    requires StreamSoFar(items, stop, ollama, i, content, buffered, looksJson, captured, progress, cost, events)
    ensures StreamSoFar(items, stop, ollama, i + 1, content', buffered', looksJson', captured', progress', cost', events')
  {
    content', buffered', looksJson', captured', progress', cost', events' :=
      content, buffered, looksJson, captured, progress, cost, events;
    ghost var ds := Deltas(items, i);
    var item := items[i];
    ItemReceived(items, i);
    LiveStep(items, stop, i);
    if item.CostItem? {
      AppendEmpty(Fragments(items, i));
      AppendEmpty(ds);
      cost' := Some(item.cost);
      return;
    }
    if item.chunk.choice.None? {
      AppendEmpty(Fragments(items, i));
      AppendEmpty(ds);
      return;
    }
    var choice := item.chunk.choice.value;
    if Truthy(choice.finishReason) {
      captured' := choice.finishReason;
    }
    var delta := choice.content;
    if delta == "" {
      AppendEmpty(ds);
    } else {
      if ollama {
        OllamaDelta(ds, delta);
        LooksJsonByStrip(buffered + delta);
      } else {
        PlainDelta(ds, delta);
      }
      content' := content + delta;
      if ollama {
        buffered' := buffered + delta;
        if !looksJson && StartsWith(Strip(buffered'), "{") {
          looksJson' := true;
        }
        if !looksJson' {
          events' := events + [Emit(TextOut(delta))];
        }
      } else {
        events' := events + [Emit(TextOut(delta))];
      }
    }
    AddAllAppend(Empty, Fragments(items, i), choice.fragments);
    progress' := MergeFragments(progress, choice.fragments);
  }
}
