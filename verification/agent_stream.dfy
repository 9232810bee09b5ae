/** What one `ChatAgent.step` does with the items of an LLM response
    stream, stated without the loop: the deltas it passes on, the error dict
    that stops it, the finish-reason decision taken on what was received,
    and the final cost. `StepTrace` is the generator's whole run: what it
    yields and what it appends to memory, in order. The loop itself is
    `Agent.ChatAgent.Step`, proved equal to `StepTrace`.

    Everything is read directly off the items consumed before the loop is
    left: the content deltas, the tool-call fragments, the last truthy
    finish reason and the last cost. */
module AgentStream {
  import opened Common
  import opened Protocol
  import opened ToolAccumulator

  // ---- Opaque JSON ----

  /** The `arguments` value of a parsed object: a dict (with its
      `json.dumps` text and its `str` text), or anything else. */
  datatype ArgsView = ArgsDict(dumped: string, repr: string) | ArgsOther

  /** `json.loads` of the stripped response text, as far as the stop branch
      looks at it: not JSON, JSON that is not an object, or an object with
      its `name` (a string, when present) and `arguments`. */
  datatype JsonView = NotJson | NonObject | Object(name: Option<string>, args: ArgsView)

  // ---- The stream loop's inputs ----

  /** `buffered_content.strip().startswith("{")`: the first character that
      is not whitespace is '{' (`LooksJsonByStrip` shows the two agree). */
  predicate LooksJson(s: string)
    decreases |s|
  {
    s != [] && (s[0] == '{' || (IsSpace(s[0]) && LooksJson(s[1..])))
  }

  /** Whether `stop_requested` is set when item `k` arrives. */
  predicate StopAt(stop: seq<bool>, k: nat)
  {
    k < |stop| && stop[k]
  }

  /** No stop flag and no error dict among the first `n` items. */
  predicate Live(items: seq<StreamItem>, stop: seq<bool>, n: nat)
    requires n <= |items|
  {
    forall k :: 0 <= k < n ==> !StopAt(stop, k) && !items[k].ErrorItem?
  }

  function HaltFrom(items: seq<StreamItem>, stop: seq<bool>, k: nat): (h: nat)
    requires k <= |items| && Live(items, stop, k)
    ensures k <= h <= |items| && Live(items, stop, h)
    ensures h < |items| ==> StopAt(stop, h) || items[h].ErrorItem?
    decreases |items| - k
  {
    if k == |items| || StopAt(stop, k) || items[k].ErrorItem? then k
    else HaltFrom(items, stop, k + 1)
  }

  /** Where the stream loop is left: the first item seen with the stop
      flag set or that is an error dict, or the end of the stream. */
  function Halt(items: seq<StreamItem>, stop: seq<bool>): (h: nat)
    ensures h <= |items| && Live(items, stop, h)
    ensures h < |items| ==> StopAt(stop, h) || items[h].ErrorItem?
  {
    HaltFrom(items, stop, 0)
  }

  /** The loop was left because an error dict arrived. */
  predicate ErrorHalt(items: seq<StreamItem>, stop: seq<bool>)
  {
    var h := Halt(items, stop);
    h < |items| && !StopAt(stop, h) && items[h].ErrorItem?
  }

  // ---- What was received before the loop was left ----

  /** The first choice of an item, if it is a chunk that has one. */
  function ChoiceOf(item: StreamItem): Option<Choice>
  {
    if item.ChunkItem? then item.chunk.choice else None
  }

  /** The non-empty content deltas among the first `n` items, in order. */
  function Deltas(items: seq<StreamItem>, n: nat): seq<string>
    requires n <= |items|
  {
    if n == 0 then []
    else
      var c := ChoiceOf(items[n - 1]);
      Deltas(items, n - 1) + (if c.Some? && c.value.content != "" then [c.value.content] else [])
  }

  /** The tool-call fragments among the first `n` items, in arrival order. */
  function Fragments(items: seq<StreamItem>, n: nat): seq<Fragment>
    requires n <= |items|
  {
    if n == 0 then []
    else
      var c := ChoiceOf(items[n - 1]);
      Fragments(items, n - 1) + (if c.Some? then c.value.fragments else [])
  }

  /** The last truthy finish reason among the first `n` items. */
  function LastReason(items: seq<StreamItem>, n: nat): Option<string>
    requires n <= |items|
  {
    if n == 0 then None
    else
      var c := ChoiceOf(items[n - 1]);
      if c.Some? && Truthy(c.value.finishReason) then c.value.finishReason else LastReason(items, n - 1)
  }

  /** The value of the last cost tuple among the first `n` items. */
  function LastCost(items: seq<StreamItem>, n: nat): Option<real>
    requires n <= |items|
  {
    if n == 0 then None
    else if items[n - 1].CostItem? then Some(items[n - 1].cost)
    else LastCost(items, n - 1)
  }

  /** The first `k` deltas, concatenated. */
  function Concat(ds: seq<string>, k: nat): string
    requires k <= |ds|
  {
    if k == 0 then "" else Concat(ds, k - 1) + ds[k - 1]
  }

  /** The first `k` deltas, each yielded as text. */
  function TextEvents(ds: seq<string>, k: nat): (es: seq<StepEvent>)
    requires k <= |ds|
    ensures |es| == k
  {
    if k == 0 then [] else TextEvents(ds, k - 1) + [Emit(TextOut(ds[k - 1]))]
  }

  /** How many of the first `k` deltas an Ollama step yields: those before
      the delta after which the text first looks like JSON. */
  function Shown(ds: seq<string>, k: nat): nat
    requires k <= |ds|
  {
    if k == 0 then 0
    else if LooksJson(Concat(ds, k)) then Shown(ds, k - 1)
    else k
  }

  // ---- After the loop ----

  /** The validity test of the tool-call branch. */
  predicate IsValidCall(c: ToolCall)
  {
    Truthy(c.id) && c.kind == "function" && c.name != ""
  }

  /** Exactly the valid calls, in their original order. */
  function ValidCalls(cs: seq<ToolCall>): seq<ToolCall>
  {
    if cs == [] then []
    else ValidCalls(cs[..|cs| - 1]) + (if IsValidCall(cs[|cs| - 1]) then [cs[|cs| - 1]] else [])
  }

  /** `ValidCalls` keeps exactly the valid calls. */
  lemma {:induction false} ValidCallsFilter(cs: seq<ToolCall>)
    ensures forall c :: c in ValidCalls(cs) <==> c in cs && IsValidCall(c)
    ensures |ValidCalls(cs)| <= |cs|
  {
    if cs != [] {
      var p := cs[..|cs| - 1];
      ValidCallsFilter(p);
      assert cs == p + [cs[|cs| - 1]];
    }
  }

  const InconsistentState: string := "[Agent Error: Inconsistent tool call state]"
  const InconsistentDetected: string := "[Agent Error: Inconsistent tool call detected]"

  function Unexpected(reason: Option<string>): string
  {
    "[Agent Error: Stream ended unexpectedly. Reason: " + Show(reason) + "]"
  }

  function Incomplete(content: string, reason: Option<string>): string
  {
    content + " [Incomplete Response: " + Show(reason) + "]"
  }

  function AssistantText(t: string): Message
  {
    NewMessage("assistant", Some(Text(t)), None, None)
  }

  function AssistantCalls(cs: seq<ToolCall>): Message
  {
    NewMessage("assistant", None, Some(cs), None)
  }

  /** Finish reason "tool_calls" with calls accumulated: append the valid
      calls as one assistant message, then yield them as one request; or,
      when none is valid, append an error text and yield an error dict. */
  function ToolCallsOutcome(calls: seq<ToolCall>): seq<StepEvent>
  {
    var valid := ValidCalls(calls);
    if valid != [] then [Remember(AssistantCalls(valid)), Emit(RequestOut(valid))]
    else [Remember(AssistantText(InconsistentState)), Emit(ErrorOut(InconsistentDetected))]
  }

  /** `f"tool_{name}_{abs(hash(str(arguments))) % 10000}"` */
  function SynthesizedId(name: string, repr: string, hash: string -> int): string
  {
    "tool_" + name + "_" + NatToString(Abs(hash(repr)) % 10000)
  }

  /** The stop branch's reading of the whole response as a tool call: a
      JSON object with a non-empty name and dict arguments becomes one call
      with a synthesized id and the arguments serialised again. Such a call
      always passes the validity test of the tool-call branch. */
  function Reinterpret(content: string, parse: string -> JsonView, hash: string -> int): (call: Option<ToolCall>)
    ensures call.Some? <==> content != "" && parse(Strip(content)).Object? &&
                            Truthy(parse(Strip(content)).name) && parse(Strip(content)).args.ArgsDict?
    ensures call.Some? ==> IsValidCall(call.value)
    ensures call.Some? ==> call.value.name == parse(Strip(content)).name.value &&
                           call.value.arguments == parse(Strip(content)).args.dumped &&
                           StartsWith(call.value.id.value, "tool_" + call.value.name + "_")
  {
    if content == "" then None
    else match parse(Strip(content))
      case Object(Some(name), ArgsDict(dumped, repr)) =>
        if name != "" then Some(ToolCall(Some(SynthesizedId(name, repr, hash)), "function", name, dumped)) else None
      case _ => None
  }

  /** Finish reason "stop": the reinterpreted call, if any, is appended and
      yielded; otherwise an Ollama buffer held back as JSON is yielded now;
      in every case the text (or an empty message) is then appended. */
  function StopOutcome(ollama: bool, content: string, buffered: string, looksJson: bool,
                       parse: string -> JsonView, hash: string -> int): seq<StepEvent>
  {
    StopEvents(Reinterpret(content, parse, hash), ollama, content, buffered, looksJson)
  }

  /** The events of finish reason "stop" once the response has been
      reinterpreted as `call`. */
  function StopEvents(call: Option<ToolCall>, ollama: bool, content: string, buffered: string,
                      looksJson: bool): seq<StepEvent>
  {
    (if call.Some? then [Remember(AssistantCalls([call.value])), Emit(RequestOut([call.value]))] else []) +
    (if call.None? && ollama && looksJson then [Emit(TextOut(buffered))] else []) +
    [Remember(if content != "" then AssistantText(content) else NewMessage("assistant", None, None, None))]
  }

  /** Any other finish reason (also "tool_calls" with nothing accumulated):
      the partial text is kept with a marker, or an error text, and an
      error dict is yielded. */
  function OtherOutcome(content: string, reason: Option<string>): seq<StepEvent>
  {
    [Remember(AssistantText(if content != "" then Incomplete(content, reason) else Unexpected(reason))),
     Emit(ErrorOut(Unexpected(reason)))]
  }

  /** The finish-reason decision table. */
  function Finish(ollama: bool, content: string, buffered: string, looksJson: bool, captured: Option<string>,
                  progress: Progress, parse: string -> JsonView, hash: string -> int): seq<StepEvent>
    requires Keyed(progress)
  {
    if captured == Some("tool_calls") && progress.calls != map[] then ToolCallsOutcome(Values(progress))
    else if captured == Some("stop") then StopOutcome(ollama, content, buffered, looksJson, parse, hash)
    else OtherOutcome(content, captured)
  }

  function CostTail(cost: Option<real>): seq<StepEvent>
  {
    if cost.Some? then [Emit(CostOut(cost.value))] else []
  }

  /** How many deltas are yielded while streaming: all of them, except for
      an Ollama model, which stops once the text looks like JSON. */
  function ShownCount(ollama: bool, ds: seq<string>): (m: nat)
    ensures m <= |ds|
  {
    if ollama then ShownAtMost(ds, |ds|); Shown(ds, |ds|) else |ds|
  }

  /** The whole run of `step` for model `model` over the stream `items`,
      with `stop[k]` the stop flag seen when item `k` arrives: the deltas
      yielded while streaming, then either the error dict that stopped the
      stream or the finish-reason decision, then the last cost received. */
  function StepTrace(model: string, items: seq<StreamItem>, stop: seq<bool>,
                     parse: string -> JsonView, hash: string -> int): seq<StepEvent>
  {
    var ollama := StartsWith(model, "ollama/");
    var h := Halt(items, stop);
    var ds := Deltas(items, h);
    var text := Concat(ds, |ds|);
    Accumulated(Fragments(items, h));
    TextEvents(ds, ShownCount(ollama, ds)) +
    (if ErrorHalt(items, stop) then [Emit(ErrorOut(items[h].content))]
     else Finish(ollama, text, if ollama then text else "", ollama && LooksJson(text),
                 LastReason(items, h), AddAll(Empty, Fragments(items, h)), parse, hash)) +
    CostTail(LastCost(items, h))
  }

  // ---- Lemmas about the reference definitions ----

  lemma {:induction false} LooksJsonByStrip(s: string)
    ensures LooksJson(s) <==> StartsWith(Strip(s), "{")
  {
    LooksJsonLStrip(s);
    StripHead(s);
  }

  /** The recursive reading agrees with `lstrip` followed by a look at the
      first character. */
  lemma {:induction false} LooksJsonLStrip(s: string)
    ensures LooksJson(s) <==> LStrip(s) != [] && LStrip(s)[0] == '{'
    decreases |s|
  {
    if s != [] && IsSpace(s[0]) {
      LooksJsonLStrip(s[1..]);
    }
  }

  /** Once the buffer looks like JSON it keeps doing so; once it holds a
      non-space character that is not '{', it never will. */
  lemma {:induction false} LooksJsonExtend(a: string, b: string)
    ensures LooksJson(a) ==> LooksJson(a + b)
    ensures !IsBlank(a) && !LooksJson(a) ==> !LooksJson(a + b)
    decreases |a|
  {
    if a != [] {
      assert (a + b)[0] == a[0] && (a + b)[1..] == a[1..] + b;
      LooksJsonExtend(a[1..], b);
      if IsSpace(a[0]) && !IsBlank(a) {
        assert !IsBlank(a[1..]) by {
          var k :| 0 <= k < |a| && !IsSpace(a[k]);
          assert a[1..][k - 1] == a[k];
        }
      }
    }
  }

  lemma {:induction false} ShownAtMost(ds: seq<string>, k: nat)
    requires k <= |ds|
    ensures Shown(ds, k) <= k
  {
    if k > 0 {
      ShownAtMost(ds, k - 1);
    }
  }

  /** Deltas that arrive later do not change what came before. */
  lemma {:induction false} ConcatFrame(ds: seq<string>, d: string, k: nat)
    requires k <= |ds|
    ensures Concat(ds + [d], k) == Concat(ds, k)
  {
    if k > 0 {
      ConcatFrame(ds, d, k - 1);
    }
  }

  lemma {:induction false} ShownFrame(ds: seq<string>, d: string, k: nat)
    requires k <= |ds|
    ensures Shown(ds + [d], k) == Shown(ds, k)
  {
    if k > 0 {
      ConcatFrame(ds, d, k);
      ShownFrame(ds, d, k - 1);
      assert Shown(ds + [d], k) == if LooksJson(Concat(ds, k)) then Shown(ds, k - 1) else k;
    }
  }

  lemma {:induction false} TextEventsFrame(ds: seq<string>, d: string, k: nat)
    requires k <= |ds|
    ensures TextEvents(ds + [d], k) == TextEvents(ds, k)
  {
    if k > 0 {
      TextEventsFrame(ds, d, k - 1);
    }
  }

  /** Once the text looks like JSON, more deltas keep it so. */
  lemma {:induction false} LooksJsonStays(ds: seq<string>, j: nat, k: nat)
    requires j <= k <= |ds| && LooksJson(Concat(ds, j))
    ensures LooksJson(Concat(ds, k))
    decreases k - j
  {
    if j < k {
      LooksJsonExtend(Concat(ds, j), ds[j]);
      LooksJsonStays(ds, j + 1, k);
    }
  }

  /** Delta `j` is yielded by an Ollama step exactly when the text up to and
      including it does not look like JSON. */
  lemma {:induction false} ShownExactly(ds: seq<string>, n: nat, j: nat)
    requires j < n <= |ds|
    ensures j < Shown(ds, n) <==> !LooksJson(Concat(ds, j + 1))
    decreases n
  {
    if LooksJson(Concat(ds, n)) {
      if j + 1 < n {
        ShownExactly(ds, n - 1, j);
      } else {
        ShownAtMost(ds, n - 1);
      }
    } else if LooksJson(Concat(ds, j + 1)) {
      LooksJsonStays(ds, j + 1, n);
    }
  }

  /** When an Ollama step stops yielding, what it yielded is blank, and the
      next delta is the one that made the text look like JSON. */
  lemma {:induction false} ShownBlank(ds: seq<string>, n: nat)
    requires n <= |ds| && Shown(ds, n) < n
    ensures IsBlank(Concat(ds, Shown(ds, n))) && LooksJson(Concat(ds, Shown(ds, n) + 1))
  {
    var m := Shown(ds, n);
    ShownExactly(ds, n, m);
    if m > 0 {
      ShownExactly(ds, n, m - 1);
      assert !LooksJson(Concat(ds, m));
      BlankBeforeJson(Concat(ds, m), ds[m]);
    }
  }

  /** Text that does not look like JSON but does once more is appended is blank. */
  lemma {:induction false} BlankBeforeJson(a: string, d: string)
    requires !LooksJson(a) && LooksJson(a + d)
    ensures IsBlank(a)
  {
    LooksJsonExtend(a, d);
  }

  /** One more non-empty delta: its effect on the text, the JSON flag and
      what an Ollama step has yielded. */
  lemma {:induction false} OllamaDelta(ds: seq<string>, d: string)
    ensures var ds' := ds + [d];
      var looks := LooksJson(Concat(ds, |ds|)) || LooksJson(Concat(ds, |ds|) + d);
      Concat(ds', |ds'|) == Concat(ds, |ds|) + d && looks == LooksJson(Concat(ds', |ds'|)) &&
      TextEvents(ds', ShownCount(true, ds')) ==
        if looks then TextEvents(ds, ShownCount(true, ds)) else TextEvents(ds, ShownCount(true, ds)) + [Emit(TextOut(d))]
  {
    var ds' := ds + [d];
    ConcatFrame(ds, d, |ds|);
    ShownFrame(ds, d, |ds|);
    LooksJsonExtend(Concat(ds, |ds|), d);
    if !LooksJson(Concat(ds', |ds'|)) {
      assert Shown(ds, |ds|) == |ds|;
    }
    TextEventsFrame(ds, d, ShownCount(true, ds));
  }

  /** One more non-empty delta for any other model. */
  lemma {:induction false} PlainDelta(ds: seq<string>, d: string)
    ensures var ds' := ds + [d];
      Concat(ds', |ds'|) == Concat(ds, |ds|) + d &&
      TextEvents(ds', |ds'|) == TextEvents(ds, |ds|) + [Emit(TextOut(d))]
  {
    ConcatFrame(ds, d, |ds|);
    TextEventsFrame(ds, d, |ds|);
  }

  /** How one more consumed item extends what was received. */
  lemma {:induction false} ItemReceived(items: seq<StreamItem>, i: nat)
    requires i < |items|
    ensures var c := ChoiceOf(items[i]);
      Deltas(items, i + 1) == Deltas(items, i) + (if c.Some? && c.value.content != "" then [c.value.content] else []) &&
      Fragments(items, i + 1) == Fragments(items, i) + (if c.Some? then c.value.fragments else []) &&
      LastReason(items, i + 1) == (if c.Some? && Truthy(c.value.finishReason) then c.value.finishReason else LastReason(items, i)) &&
      LastCost(items, i + 1) == (if items[i].CostItem? then Some(items[i].cost) else LastCost(items, i))
  {
  }

  /** The pieces of a step put together: what the stream loop collected
      and yielded (the deltas shown and, if the loop met an error dict, that
      dict), then the finish-reason decision (none after an error dict),
      then the last cost make up `StepTrace`; only the decision appends to
      memory. */
  lemma {:induction false} TraceAssembled(model: string, items: seq<StreamItem>, stop: seq<bool>, parse: string -> JsonView, hash: string -> int,
                                          h: nat, content: string, buffered: string, looksJson: bool, captured: Option<string>,
                                          progress: Progress, cost: Option<real>, errorYielded: bool,
                                          streamed: seq<StepEvent>, decided: seq<StepEvent>)
    requires h == Halt(items, stop) && errorYielded == ErrorHalt(items, stop)
    requires var ds := Deltas(items, h);
      content == Concat(ds, |ds|) &&
      streamed == TextEvents(ds, ShownCount(StartsWith(model, "ollama/"), ds)) +
                  (if errorYielded then [Emit(ErrorOut(items[h].content))] else [])
    requires var ollama := StartsWith(model, "ollama/");
      buffered == (if ollama then content else "") && looksJson == (ollama && LooksJson(content))
    requires captured == LastReason(items, h) && cost == LastCost(items, h)
    requires progress == AddAll(Empty, Fragments(items, h)) && Keyed(progress)
    requires decided == if errorYielded then [] else
      Finish(StartsWith(model, "ollama/"), content, buffered, looksJson, captured, progress, parse, hash)
    ensures streamed + (decided + CostTail(cost)) == StepTrace(model, items, stop, parse, hash)
    ensures Remembered(streamed + (decided + CostTail(cost))) == Remembered(decided)
  {
    var ds := Deltas(items, h);
    var shown := TextEvents(ds, ShownCount(StartsWith(model, "ollama/"), ds));
    var halted: seq<StepEvent> := if errorYielded then [Emit(ErrorOut(items[h].content))] else [];
    TextEventsRemember(ds, ShownCount(StartsWith(model, "ollama/"), ds));
    if errorYielded {
      YieldOnly(ErrorOut(items[h].content));
    }
    if cost.Some? {
      YieldOnly(CostOut(cost.value));
    }
    AppendEmpty(halted);
    AppendEmpty(decided);
    Regrouped(shown, halted, decided, CostTail(cost));
  }

  /** An item that is neither stopped nor an error dict keeps the loop going. */
  lemma {:induction false} LiveStep(items: seq<StreamItem>, stop: seq<bool>, i: nat)
    requires i < |items| && Live(items, stop, i) && !StopAt(stop, i) && !items[i].ErrorItem?
    ensures Live(items, stop, i + 1)
  {
  }

  /** Where the loop stops is `Halt`: the end of the stream, or the first
      item that carries a stop flag or is an error dict. */
  lemma {:induction false} HaltAt(items: seq<StreamItem>, stop: seq<bool>, i: nat)
    requires i <= |items| && Live(items, stop, i)
    requires i == |items| || StopAt(stop, i) || items[i].ErrorItem?
    ensures Halt(items, stop) == i
  {
    HaltFromAt(items, stop, 0, i);
  }

  lemma {:induction false} HaltFromAt(items: seq<StreamItem>, stop: seq<bool>, k: nat, i: nat)
    requires k <= i <= |items| && Live(items, stop, i)
    requires i == |items| || StopAt(stop, i) || items[i].ErrorItem?
    ensures Live(items, stop, k) && HaltFrom(items, stop, k) == i
    decreases i - k
  {
    if k < i {
      HaltFromAt(items, stop, k + 1, i);
    }
  }

  /** Streaming appends nothing to memory. */
  lemma {:induction false} TextEventsRemember(ds: seq<string>, k: nat)
    requires k <= |ds|
    ensures Remembered(TextEvents(ds, k)) == []
  {
    if k > 0 {
      TextEventsRemember(ds, k - 1);
      EventSnoc(TextEvents(ds, k - 1), Emit(TextOut(ds[k - 1])));
    }
  }

  /** Streaming yields the deltas as text, in order. */
  lemma {:induction false} TextEventsYield(ds: seq<string>, k: nat)
    requires k <= |ds|
    ensures Emitted(TextEvents(ds, k)) == seq(k, j requires 0 <= j < k => TextOut(ds[j]))
  {
    if k > 0 {
      TextEventsYield(ds, k - 1);
      EventSnoc(TextEvents(ds, k - 1), Emit(TextOut(ds[k - 1])));
    }
  }
}
