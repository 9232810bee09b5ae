/** What a whole step of `ChatAgent` yields and appends, stated over
    `StepTrace`: the error dict path, the three finish-reason outcomes, the
    position of the cost tuple, the deltas streamed, and the shape of every
    message appended. */
module AgentTrace {
  import opened Common
  import opened Protocol
  import opened ToolAccumulator
  import opened AgentStream

  /** Every message a run appends is stored exactly as built. */
  predicate AllShaped(t: seq<StepEvent>)
  {
    forall k :: 0 <= k < |t| && t[k].Remember? ==> Shaped(t[k].msg)
  }

  /** The event is the cost tuple. */
  predicate IsCost(e: StepEvent)
  {
    e.Emit? && e.item.CostOut?
  }

  /** The event is an error dict. */
  predicate IsError(e: StepEvent)
  {
    e.Emit? && e.item.ErrorOut?
  }

  /** An event that ends the plain relaying of a step: an error dict or a
      tool-call request. */
  predicate Halts(e: StepEvent)
  {
    e.Emit? && (e.item.ErrorOut? || e.item.RequestOut?)
  }

  /** An event after which nothing is yielded but the cost. */
  predicate Quiet(e: StepEvent)
  {
    e.Remember? || IsCost(e)
  }

  predicate NoHalts(t: seq<StepEvent>)
  {
    forall k :: 0 <= k < |t| ==> !Halts(t[k])
  }

  predicate AllQuiet(t: seq<StepEvent>)
  {
    forall k :: 0 <= k < |t| ==> Quiet(t[k])
  }

  /** Once an event halts the relaying, every later one is quiet. */
  predicate QuietAfterHalt(t: seq<StepEvent>)
  {
    forall i, k :: 0 <= i < k < |t| && Halts(t[i]) ==> Quiet(t[k])
  }

  lemma AllShapedAppend(a: seq<StepEvent>, b: seq<StepEvent>)
    requires AllShaped(a) && AllShaped(b)
    ensures AllShaped(a + b)
  {
    forall k | 0 <= k < |a + b| && (a + b)[k].Remember?
      ensures Shaped((a + b)[k].msg)
    {
      if k >= |a| {
        assert (a + b)[k] == b[k - |a|];
      }
    }
  }

  /** Streaming events are the deltas, each yielded as text, in order. */
  lemma {:induction false} TextEventsAt(ds: seq<string>, n: nat)
    requires n <= |ds|
    ensures forall j :: 0 <= j < n ==> TextEvents(ds, n)[j] == Emit(TextOut(ds[j]))
  {
    if n > 0 {
      TextEventsAt(ds, n - 1);
      assert TextEvents(ds, n) == TextEvents(ds, n - 1) + [Emit(TextOut(ds[n - 1]))];
    }
  }

  /** A run of events with no cost tuple in it. */
  predicate NoCost(t: seq<StepEvent>)
  {
    forall k :: 0 <= k < |t| ==> !IsCost(t[k])
  }

  lemma NoCostAppend(a: seq<StepEvent>, b: seq<StepEvent>)
    requires NoCost(a) && NoCost(b)
    ensures NoCost(a + b)
  {
    forall k | 0 <= k < |a + b|
      ensures !IsCost((a + b)[k])
    {
      if k >= |a| {
        assert (a + b)[k] == b[k - |a|];
      }
    }
  }

  lemma StopPlain(call: Option<ToolCall>, ollama: bool, content: string, buffered: string, looksJson: bool)
    requires call.Some? ==> IsValidCall(call.value)
    ensures var f := StopEvents(call, ollama, content, buffered, looksJson);
      AllShaped(f) && NoCost(f)
  {
    var a := if call.Some? then [Remember(AssistantCalls([call.value])), Emit(RequestOut([call.value]))] else [];
    var b := if call.None? && ollama && looksJson then [Emit(TextOut(buffered))] else [];
    var c := [Remember(if content != "" then AssistantText(content) else NewMessage("assistant", None, None, None))];
    AllShapedAppend(a, b);
    AllShapedAppend(a + b, c);
    NoCostAppend(a, b);
    NoCostAppend(a + b, c);
  }

  /** The decision a step takes once its stream is over: no cost tuple, and
      only assistant messages, none of them a tool result. */
  lemma FinishPlain(ollama: bool, content: string, buffered: string, looksJson: bool, captured: Option<string>,
                    progress: Progress, parse: string -> JsonView, hash: string -> int)
    requires Keyed(progress)
    ensures var f := Finish(ollama, content, buffered, looksJson, captured, progress, parse, hash);
      AllShaped(f) && NoCost(f)
  {
    if captured == Some("tool_calls") && progress.calls != map[] {
      var o := ToolCallsOutcome(Values(progress));
      assert AllShaped(o) && NoCost(o);
    } else if captured == Some("stop") {
      StopPlain(Reinterpret(content, parse, hash), ollama, content, buffered, looksJson);
    } else {
      var o := OtherOutcome(content, captured);
      assert AllShaped(o) && NoCost(o);
    }
  }

  lemma QuietAppend(a: seq<StepEvent>, b: seq<StepEvent>)
    requires QuietAfterHalt(a) && QuietAfterHalt(b) && (NoHalts(a) || AllQuiet(b))
    ensures QuietAfterHalt(a + b)
  {
    forall i, k | 0 <= i < k < |a + b| && Halts((a + b)[i])
      ensures Quiet((a + b)[k])
    {
      if k < |a| {
        assert (a + b)[i] == a[i] && (a + b)[k] == a[k];
      } else if i >= |a| {
        assert (a + b)[i] == b[i - |a|] && (a + b)[k] == b[k - |a|];
      } else {
        assert (a + b)[i] == a[i] && (a + b)[k] == b[k - |a|];
      }
    }
  }

  lemma StopQuiet(call: Option<ToolCall>, ollama: bool, content: string, buffered: string, looksJson: bool)
    ensures QuietAfterHalt(StopEvents(call, ollama, content, buffered, looksJson))
  {
    var a := if call.Some? then [Remember(AssistantCalls([call.value])), Emit(RequestOut([call.value]))] else [];
    var b := if call.None? && ollama && looksJson then [Emit(TextOut(buffered))] else [];
    var c := [Remember(if content != "" then AssistantText(content) else NewMessage("assistant", None, None, None))];
    assert a + b == (if call.Some? then a else b);
    QuietAppend(a + b, c);
  }

  /** The decision taken at the end of a stream halts at most once, and
      only appends after that. */
  lemma FinishQuiet(ollama: bool, content: string, buffered: string, looksJson: bool, captured: Option<string>,
                    progress: Progress, parse: string -> JsonView, hash: string -> int)
    requires Keyed(progress)
    ensures QuietAfterHalt(Finish(ollama, content, buffered, looksJson, captured, progress, parse, hash))
  {
    if captured == Some("tool_calls") && progress.calls != map[] {
    } else if captured == Some("stop") {
      StopQuiet(Reinterpret(content, parse, hash), ollama, content, buffered, looksJson);
    }
  }

  /** The parts a step trace is made of. */
  lemma TraceParts(model: string, items: seq<StreamItem>, stop: seq<bool>, parse: string -> JsonView, hash: string -> int)
    returns (shown: seq<StepEvent>, middle: seq<StepEvent>)
    ensures var h := Halt(items, stop);
      StepTrace(model, items, stop, parse, hash) == shown + middle + CostTail(LastCost(items, h))
    ensures var ds := Deltas(items, Halt(items, stop));
      shown == TextEvents(ds, ShownCount(StartsWith(model, "ollama/"), ds))
    ensures AllShaped(shown) && AllShaped(middle)
    ensures forall k :: 0 <= k < |shown| ==> shown[k].Emit? && shown[k].item.TextOut?
    ensures NoCost(middle)
    ensures ErrorHalt(items, stop) ==> middle == [Emit(ErrorOut(items[Halt(items, stop)].content))]
    ensures QuietAfterHalt(middle)
  {
    var ollama := StartsWith(model, "ollama/");
    var h := Halt(items, stop);
    var ds := Deltas(items, h);
    var text := Concat(ds, |ds|);
    Accumulated(Fragments(items, h));
    shown := TextEvents(ds, ShownCount(ollama, ds));
    TextEventsAt(ds, ShownCount(ollama, ds));
    if ErrorHalt(items, stop) {
      middle := [Emit(ErrorOut(items[h].content))];
    } else {
      middle := Finish(ollama, text, if ollama then text else "", ollama && LooksJson(text),
                       LastReason(items, h), AddAll(Empty, Fragments(items, h)), parse, hash);
      FinishPlain(ollama, text, if ollama then text else "", ollama && LooksJson(text),
                  LastReason(items, h), AddAll(Empty, Fragments(items, h)), parse, hash);
      FinishQuiet(ollama, text, if ollama then text else "", ollama && LooksJson(text),
                  LastReason(items, h), AddAll(Empty, Fragments(items, h)), parse, hash);
    }
  }

  /** Every message a step appends is stored as built: none is a tool result
      without content. */
  lemma StepTraceShaped(model: string, items: seq<StreamItem>, stop: seq<bool>, parse: string -> JsonView, hash: string -> int)
    ensures AllShaped(StepTrace(model, items, stop, parse, hash))
  {
    var shown, middle := TraceParts(model, items, stop, parse, hash);
    AllShapedAppend(shown, middle);
    AllShapedAppend(shown + middle, CostTail(LastCost(items, Halt(items, stop))));
  }

  /** A step halts at most once: after its error dict or its tool-call
      request come only appended messages and the cost. */
  lemma StepQuiet(model: string, items: seq<StreamItem>, stop: seq<bool>, parse: string -> JsonView, hash: string -> int)
    ensures QuietAfterHalt(StepTrace(model, items, stop, parse, hash))
  {
    var shown, middle := TraceParts(model, items, stop, parse, hash);
    QuietAppend(shown, middle);
    QuietAppend(shown + middle, CostTail(LastCost(items, Halt(items, stop))));
  }

  /** The cost tuple is never yielded mid-stream: only the last event can be
      one, and it is one exactly when a cost was received, carrying the last
      value received. */
  lemma CostIsLast(model: string, items: seq<StreamItem>, stop: seq<bool>, parse: string -> JsonView, hash: string -> int)
    ensures var t := StepTrace(model, items, stop, parse, hash);
      forall k :: 0 <= k < |t| - 1 ==> !IsCost(t[k])
    ensures var t := StepTrace(model, items, stop, parse, hash);
      var cost := LastCost(items, Halt(items, stop));
      (|t| > 0 && IsCost(t[|t| - 1]) <==> cost.Some?) &&
      (cost.Some? ==> t[|t| - 1] == Emit(CostOut(cost.value)))
  {
    var t := StepTrace(model, items, stop, parse, hash);
    var shown, middle := TraceParts(model, items, stop, parse, hash);
    var body := shown + middle;
    assert forall k :: 0 <= k < |body| ==> !IsCost(body[k]) by {
      forall k | 0 <= k < |body|
        ensures !IsCost(body[k])
      {
        if k < |shown| {
          assert body[k] == shown[k];
        } else {
          assert body[k] == middle[k - |shown|];
        }
      }
    }
    var cost := LastCost(items, Halt(items, stop));
    if cost.Some? {
      assert t == body + [Emit(CostOut(cost.value))];
    } else {
      assert t == body + [];
    }
    forall k | 0 <= k < |t| - 1
      ensures !IsCost(t[k])
    {
      assert t[k] == body[k];
    }
  }

  /** An error dict from the stream is yielded once, right after the deltas
      streamed before it, and nothing at all is appended to memory. */
  lemma ErrorHaltTrace(model: string, items: seq<StreamItem>, stop: seq<bool>, parse: string -> JsonView, hash: string -> int)
    requires ErrorHalt(items, stop)
    ensures var t := StepTrace(model, items, stop, parse, hash);
      var ds := Deltas(items, Halt(items, stop));
      var n := ShownCount(StartsWith(model, "ollama/"), ds);
      Remembered(t) == [] && n < |t| && t[n] == Emit(ErrorOut(items[Halt(items, stop)].content)) &&
      forall k :: 0 <= k < |t| && IsError(t[k]) ==> k == n
  {
    var shown, middle := TraceParts(model, items, stop, parse, hash);
    var ds := Deltas(items, Halt(items, stop));
    TextEventsRemember(ds, ShownCount(StartsWith(model, "ollama/"), ds));
    ErrorBetween(shown, ErrorOut(items[Halt(items, stop)].content), LastCost(items, Halt(items, stop)));
  }

  /** Deltas, one error dict, then at most the cost: the dict is the only
      error dict, and nothing is appended. */
  lemma ErrorBetween(shown: seq<StepEvent>, y: Yielded, cost: Option<real>)
    requires Remembered(shown) == [] && forall k :: 0 <= k < |shown| ==> shown[k].Emit? && shown[k].item.TextOut?
    ensures var t := shown + [Emit(y)] + CostTail(cost);
      Remembered(t) == [] && t[|shown|] == Emit(y) && forall k :: 0 <= k < |t| && IsError(t[k]) ==> k == |shown|
  {
    var tail := CostTail(cost);
    var t := shown + [Emit(y)] + tail;
    YieldOnly(y);
    if cost.Some? {
      YieldOnly(CostOut(cost.value));
    }
    EmittedAppend(shown, [Emit(y)]);
    EmittedAppend(shown + [Emit(y)], tail);
    forall k | 0 <= k < |t| && k != |shown|
      ensures !IsError(t[k])
    {
      if k < |shown| {
        assert t[k] == shown[k];
      } else {
        assert t[k] == tail[k - |shown| - 1];
      }
    }
  }

  /** Finish reason "tool_calls" with calls accumulated: when some call is
      valid, exactly the valid calls, in order, are appended as one
      assistant message and yielded as one request; otherwise one error text
      is appended and one error dict yielded. */
  lemma ToolCallsDecision(calls: seq<ToolCall>)
    ensures var v := ValidCalls(calls);
      (forall c :: c in v <==> c in calls && IsValidCall(c)) &&
      (v != [] ==> Remembered(ToolCallsOutcome(calls)) == [AssistantCalls(v)] &&
                   Emitted(ToolCallsOutcome(calls)) == [RequestOut(v)]) &&
      (v == [] ==> Remembered(ToolCallsOutcome(calls)) == [AssistantText(InconsistentState)] &&
                   Emitted(ToolCallsOutcome(calls)) == [ErrorOut(InconsistentDetected)])
  {
    ValidCallsFilter(calls);
    var v := ValidCalls(calls);
    var m := if v != [] then AssistantCalls(v) else AssistantText(InconsistentState);
    var y := if v != [] then RequestOut(v) else ErrorOut(InconsistentDetected);
    EventSnoc([], Remember(m));
    assert [] + [Remember(m)] == [Remember(m)];
    EventSnoc([Remember(m)], Emit(y));
    assert ToolCallsOutcome(calls) == [Remember(m)] + [Emit(y)];
  }

  /** Finish reason "stop": a response that reads as a tool call is appended
      and yielded as a request with one synthesized call; otherwise an Ollama
      buffer held back as JSON is yielded now; and in every case the text
      (or a message without content) is appended last. */
  lemma StopDecision(call: Option<ToolCall>, ollama: bool, content: string, buffered: string, looksJson: bool)
    ensures var o := StopEvents(call, ollama, content, buffered, looksJson);
      var last := if content != "" then AssistantText(content) else NewMessage("assistant", None, None, None);
      Remembered(o) == (if call.Some? then [AssistantCalls([call.value])] else []) + [last] &&
      Emitted(o) == (if call.Some? then [RequestOut([call.value])]
                     else if ollama && looksJson then [TextOut(buffered)] else []) &&
      (content != "" ==> last.content == Some(Text(content)))
  {
    var last := if content != "" then AssistantText(content) else NewMessage("assistant", None, None, None);
    var a := if call.Some? then [Remember(AssistantCalls([call.value])), Emit(RequestOut([call.value]))] else [];
    var b := if call.None? && ollama && looksJson then [Emit(TextOut(buffered))] else [];
    var c := [Remember(last)];
    if call.Some? {
      EventSnoc([], Remember(AssistantCalls([call.value])));
      assert [] + [Remember(AssistantCalls([call.value]))] == [Remember(AssistantCalls([call.value]))];
      EventSnoc([Remember(AssistantCalls([call.value]))], Emit(RequestOut([call.value])));
      assert a == [Remember(AssistantCalls([call.value]))] + [Emit(RequestOut([call.value]))];
    }
    if b != [] {
      YieldOnly(TextOut(buffered));
    }
    EventSnoc([], Remember(last));
    assert [] + c == c;
    EmittedAppend(a, b);
    EmittedAppend(a + b, c);
  }

  /** Any other finish reason: the partial text with its marker, or an
      error text when there is none, is appended, and one error dict naming
      the reason is yielded. */
  lemma OtherDecision(content: string, reason: Option<string>)
    ensures Remembered(OtherOutcome(content, reason)) ==
              [AssistantText(if content != "" then content + " [Incomplete Response: " + Show(reason) + "]"
                             else "[Agent Error: Stream ended unexpectedly. Reason: " + Show(reason) + "]")]
    ensures Emitted(OtherOutcome(content, reason)) == [ErrorOut("[Agent Error: Stream ended unexpectedly. Reason: " + Show(reason) + "]")]
  {
    var m := AssistantText(if content != "" then Incomplete(content, reason) else Unexpected(reason));
    EventSnoc([], Remember(m));
    assert [] + [Remember(m)] == [Remember(m)];
    EventSnoc([Remember(m)], Emit(ErrorOut(Unexpected(reason))));
    assert OtherOutcome(content, reason) == [Remember(m)] + [Emit(ErrorOut(Unexpected(reason)))];
  }

  /** The deltas streamed come first, in order; for any model but an
      Ollama one that is every non-empty delta received (for an Ollama model
      `ShownExactly` says which ones). */
  lemma StreamedFirst(model: string, items: seq<StreamItem>, stop: seq<bool>, parse: string -> JsonView, hash: string -> int)
    ensures var t := StepTrace(model, items, stop, parse, hash);
      var ds := Deltas(items, Halt(items, stop));
      var n := ShownCount(StartsWith(model, "ollama/"), ds);
      n <= |t| && (forall j :: 0 <= j < n ==> t[j] == Emit(TextOut(ds[j]))) &&
      (!StartsWith(model, "ollama/") ==> n == |ds|)
  {
    var t := StepTrace(model, items, stop, parse, hash);
    var shown, middle := TraceParts(model, items, stop, parse, hash);
    var ds := Deltas(items, Halt(items, stop));
    TextEventsAt(ds, |shown|);
    var rest := middle + CostTail(LastCost(items, Halt(items, stop)));
    AppendAssoc(shown, middle, CostTail(LastCost(items, Halt(items, stop))));
    assert t == shown + rest;
    forall j | 0 <= j < |shown|
      ensures t[j] == shown[j]
    {
    }
  }
}
