/** The older `ChatAgent` of `backend/agent.py`: the same memory and
    tool-call accumulation as the current agent, but a single SDK call that
    may raise before streaming, no stop flag, no error dicts or cost tuples
    in the stream, no Ollama buffering and no reinterpretation of a "stop"
    answer. Its finish reason is simply the last one seen. */
module LegacyAgent {
  import opened Common
  import opened Protocol
  import opened ToolAccumulator
  import opened AgentStream
  import opened AgentTrace

  const LegacyDefaultModel: string := "gpt-4o-mini"

  /** The fixed system prompt of this agent; its wording is not part of
      this model. */
  const LegacySystemPrompt: string

  const LegacySystemMessage: Message := Message("system", Some(Text(LegacySystemPrompt)), None, None)

  /** What `client.chat.completions.create` does with the model name and
      memory: raise at once, return a stream of chunks, or return a stream
      whose iteration raises `error` after delivering `chunks`. */
  datatype LegacyRun = CreateFailed(error: string) | Streamed(chunks: seq<Chunk>) | StreamRaised(chunks: seq<Chunk>, error: string)

  /** The exception that leaves the generator, if any: only a stream that
      raises while being iterated lets it escape. */
  function Escaped(run: LegacyRun): Option<string>
  {
    if run.StreamRaised? then Some(run.error) else None
  }

  /** The error dict's content when the call itself raised. */
  function CallError(e: string): string
  {
    "[LLM Call Error: " + e + "]"
  }

  /** The chunks as stream items, so that the definitions of what was
      received (`Deltas`, `Fragments`) apply to them. */
  function AsItems(cs: seq<Chunk>): (items: seq<StreamItem>)
    ensures |items| == |cs| && forall k :: 0 <= k < |cs| ==> ChoiceOf(items[k]) == cs[k].choice
  {
    seq(|cs|, k requires 0 <= k < |cs| => ChunkItem(cs[k]))
  }

  /** `finish_reason` after the first `n` chunks: overwritten by every chunk
      that has a choice, even with `None`. */
  function FinalReason(cs: seq<Chunk>, n: nat): Option<string>
    requires n <= |cs|
  {
    if n == 0 then None
    else if cs[n - 1].choice.Some? then cs[n - 1].choice.value.finishReason
    else FinalReason(cs, n - 1)
  }

  /** The decision after the stream: the valid accumulated calls (or the
      inconsistency error) for "tool_calls" with something accumulated; the
      whole text, or a message without content, for "stop"; otherwise the
      partial text with a marker (or an error text) and an error dict. */
  function LegacyDecision(text: string, reason: Option<string>, progress: Progress): seq<StepEvent>
    requires Keyed(progress)
  {
    if reason == Some("tool_calls") && progress.calls != map[] then ToolCallsOutcome(Values(progress))
    else if reason == Some("stop") then
      [Remember(if text != "" then AssistantText(text) else NewMessage("assistant", None, None, None))]
    else OtherOutcome(text, reason)
  }

  /** The deltas of the chunks, as the stream loop yields them. */
  function StreamedText(cs: seq<Chunk>): seq<StepEvent>
  {
    var ds := Deltas(AsItems(cs), |cs|);
    TextEvents(ds, |ds|)
  }

  /** The generator's whole run: one error dict when the call raised;
      otherwise every delta as it arrives, then the decision, unless the
      stream raised, which ends the run after the deltas it delivered. */
  function LegacyTrace(run: LegacyRun): seq<StepEvent>
  {
    match run
    case CreateFailed(e) => [Emit(ErrorOut(CallError(e)))]
    case StreamRaised(cs, _) => StreamedText(cs)
    case Streamed(cs) =>
      var items := AsItems(cs);
      var ds := Deltas(items, |items|);
      Accumulated(Fragments(items, |items|));
      TextEvents(ds, |ds|) + LegacyDecision(Concat(ds, |ds|), FinalReason(cs, |cs|), AddAll(Empty, Fragments(items, |items|)))
  }

  /** A stream that raised yields only text and appends nothing: no
      assistant message is stored for the deltas already sent. */
  lemma RaisedQuiet(cs: seq<Chunk>, e: string)
    ensures var t := LegacyTrace(StreamRaised(cs, e));
      Remembered(t) == [] && forall k :: 0 <= k < |t| ==> t[k].Emit? && t[k].item.TextOut?
  {
    var ds := Deltas(AsItems(cs), |cs|);
    TextEventsRemember(ds, |ds|);
    TextEventsAt(ds, |ds|);
  }

  class ChatAgent {
    var modelName: string
    var memory: seq<Message>
    var pendingAskId: Option<string>

    /** A fresh agent: memory holding only the system message, no pending
        question (the model defaults to `LegacyDefaultModel`). */
    constructor(modelName: string)
      ensures this.modelName == modelName && memory == [LegacySystemMessage] && pendingAskId == None
    {
      this.modelName := modelName;
      memory := [];
      pendingAskId := None;
      new;
      memory := memory + [LegacySystemMessage];
    }

    method SetModel(name: string)
      modifies this
      ensures modelName == name && memory == old(memory) && pendingAskId == old(pendingAskId)
    {
      modelName := name;
    }

    /** Appends exactly one message, built by the shape rules of
        `NewMessage`, and changes nothing else. */
    method AddMessageToMemory(role: string, content: Option<Content>, toolCalls: Option<seq<ToolCall>>, toolCallId: Option<string>)
      modifies this
      ensures memory == old(memory) + [NewMessage(role, content, toolCalls, toolCallId)]
      ensures modelName == old(modelName) && pendingAskId == old(pendingAskId)
    {
      var c := content;
      if toolCallId.Some? && content.None? {
        c := Some(Text(""));
      }
      memory := memory + [Message(role, c, toolCalls, toolCallId)];
    }

    /** One step, run to the end: it yields and appends exactly what
        `LegacyTrace` says for what the client does with the current model
        and memory, and `raised` is the exception that escapes it. */
    method Step(client: (string, seq<Message>) -> LegacyRun) returns (events: seq<StepEvent>, raised: Option<string>)
      modifies this
      ensures modelName == old(modelName) && pendingAskId == old(pendingAskId)
      ensures events == LegacyTrace(client(modelName, old(memory)))
      ensures memory == old(memory) + Remembered(events)
      ensures raised == Escaped(client(modelName, old(memory)))
    {
      var run := client(modelName, memory);
      if run.CreateFailed? {
        events := [Emit(ErrorOut(CallError(run.error)))];
        YieldOnly(ErrorOut(CallError(run.error)));
        AppendEmpty(memory);
        return events, None;
      }
      raised := if run.StreamRaised? then Some(run.error) else None;
      events := StreamStep(run.chunks, raised);
    }

    /** A stream that was opened: its deltas, then the decision, unless
        iterating it raised `raised`, which leaves the loop at once and
        skips the decision. */
    method StreamStep(cs: seq<Chunk>, raised: Option<string>) returns (events: seq<StepEvent>)
      modifies this
      ensures modelName == old(modelName) && pendingAskId == old(pendingAskId)
      ensures events == LegacyTrace(if raised.Some? then StreamRaised(cs, raised.value) else Streamed(cs))
      ensures memory == old(memory) + Remembered(events)
    {
      var content, reason, progress;
      content, reason, progress, events := ReadChunks(cs);
      if raised.Some? {
        RaisedQuiet(cs, raised.value);
        AppendEmpty(memory);
        return;
      }
      var fin := Decide(content, reason, progress);
      ghost var ds := Deltas(AsItems(cs), |cs|);
      TextEventsRemember(ds, |ds|);
      EmittedAppend(events, fin);
      assert Remembered(events + fin) == Remembered(fin);
      events := events + fin;
    }

    /** The finish-reason decision, taken once the stream is exhausted. */
    method Decide(content: string, reason: Option<string>, progress: Progress) returns (fin: seq<StepEvent>)
      requires Keyed(progress)
      modifies this
      ensures fin == LegacyDecision(content, reason, progress)
      ensures memory == old(memory) + Remembered(fin)
      ensures modelName == old(modelName) && pendingAskId == old(pendingAskId)
    {
      if reason == Some("tool_calls") && progress.calls != map[] {
        fin := DecideToolCalls(Values(progress));
      } else if reason == Some("stop") {
        fin := DecideStop(content);
      } else {
        fin := DecideOther(content, reason);
      }
    }

    /** Finish reason "tool_calls" with calls accumulated. */
    method DecideToolCalls(finalCalls: seq<ToolCall>) returns (fin: seq<StepEvent>)
      modifies this
      ensures fin == ToolCallsOutcome(finalCalls)
      ensures memory == old(memory) + Remembered(fin)
      ensures modelName == old(modelName) && pendingAskId == old(pendingAskId)
    {
      fin := [];
      var valid := ValidCalls(finalCalls);
      if valid != [] {
        AddMessageToMemory("assistant", None, Some(valid), None);
        EventSnoc(fin, Remember(AssistantCalls(valid)));
        fin := fin + [Remember(AssistantCalls(valid))];
        EventSnoc(fin, Emit(RequestOut(valid)));
        fin := fin + [Emit(RequestOut(valid))];
      } else {
        AddMessageToMemory("assistant", Some(Text(InconsistentState)), None, None);
        EventSnoc(fin, Remember(AssistantText(InconsistentState)));
        fin := fin + [Remember(AssistantText(InconsistentState))];
        EventSnoc(fin, Emit(ErrorOut(InconsistentDetected)));
        fin := fin + [Emit(ErrorOut(InconsistentDetected))];
      }
    }

    /** Finish reason "stop": the text, or a message without content. */
    method DecideStop(content: string) returns (fin: seq<StepEvent>)
      modifies this
      ensures fin == [Remember(if content != "" then AssistantText(content) else NewMessage("assistant", None, None, None))]
      ensures memory == old(memory) + Remembered(fin)
      ensures modelName == old(modelName) && pendingAskId == old(pendingAskId)
    {
      var text: Option<Content> := if content != "" then Some(Text(content)) else None;
      AddMessageToMemory("assistant", text, None, None);
      EventSnoc([], Remember(NewMessage("assistant", text, None, None)));
      fin := [Remember(NewMessage("assistant", text, None, None))];
      assert [] + fin == fin;
    }

    /** Any other finish reason. */
    method DecideOther(content: string, reason: Option<string>) returns (fin: seq<StepEvent>)
      modifies this
      ensures fin == OtherOutcome(content, reason)
      ensures memory == old(memory) + Remembered(fin)
      ensures modelName == old(modelName) && pendingAskId == old(pendingAskId)
    {
      fin := [];
      var text := if content != "" then Incomplete(content, reason) else Unexpected(reason);
      AddMessageToMemory("assistant", Some(Text(text)), None, None);
      EventSnoc(fin, Remember(AssistantText(text)));
      fin := fin + [Remember(AssistantText(text))];
      EventSnoc(fin, Emit(ErrorOut(Unexpected(reason))));
      fin := fin + [Emit(ErrorOut(Unexpected(reason)))];
    }
  }

  /** What the stream loop holds after the first `i` chunks. */
  ghost predicate ReadSoFar(cs: seq<Chunk>, i: nat, content: string, reason: Option<string>,
                            progress: Progress, events: seq<StepEvent>)
  {
    i <= |cs| &&
    var ds := Deltas(AsItems(cs), i);
    content == Concat(ds, |ds|) && events == TextEvents(ds, |ds|) &&
    reason == FinalReason(cs, i) && progress == AddAll(Empty, Fragments(AsItems(cs), i))
  }

  /** The stream loop: every non-empty delta is added to the text and
      yielded at once, every chunk with a choice overwrites the finish
      reason, and tool-call fragments are accumulated per index. */
  method ReadChunks(cs: seq<Chunk>) returns (content: string, reason: Option<string>, progress: Progress, events: seq<StepEvent>)
    ensures var ds := Deltas(AsItems(cs), |cs|);
      content == Concat(ds, |ds|) && events == TextEvents(ds, |ds|)
    ensures reason == FinalReason(cs, |cs|)
    ensures progress == AddAll(Empty, Fragments(AsItems(cs), |cs|)) && Keyed(progress)
  {
    content := "";
    reason := None;
    progress := Empty;
    events := [];
    var i := 0;
    while i < |cs|
      invariant ReadSoFar(cs, i, content, reason, progress, events)
    {
      content, reason, progress, events := ReadChunk(cs, i, content, reason, progress, events);
      i := i + 1;
    }
    Accumulated(Fragments(AsItems(cs), i));
  }

  /** One turn of the stream loop, on chunk `i`. */
  method ReadChunk(cs: seq<Chunk>, i: nat, content: string, reason: Option<string>,
                   progress: Progress, events: seq<StepEvent>)
    returns (content': string, reason': Option<string>, progress': Progress, events': seq<StepEvent>)
    requires i < |cs| && ReadSoFar(cs, i, content, reason, progress, events)
    ensures ReadSoFar(cs, i + 1, content', reason', progress', events')
  {
    ghost var items := AsItems(cs);
    ghost var ds := Deltas(items, i);
    content', reason', progress', events' := content, reason, progress, events;
    var c := cs[i].choice;
    ItemReceived(items, i);
    if c.None? {
      AppendEmpty(Fragments(items, i));
      AppendEmpty(ds);
      return;
    }
    reason' := c.value.finishReason;
    var delta := c.value.content;
    if delta != "" {
      PlainDelta(ds, delta);
      content' := content + delta;
      events' := events + [Emit(TextOut(delta))];
    } else {
      AppendEmpty(ds);
    }
    AddAllAppend(Empty, Fragments(items, i), c.value.fragments);
    progress' := MergeFragments(progress, c.value.fragments);
  }
}
