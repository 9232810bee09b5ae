/** `run_agent_step_and_send`: drives one agent step and relays it over the
    websocket. Text deltas become `chunk` frames and the cost tuple is kept;
    an error dict ends the turn; a tool-call request is sorted by name:
    `ask_user` and `terminate` end the turn at once, server tools run here and
    their results go to memory, client tools are sent out and their results
    awaited, and after server results (or a denial) the next step runs. The
    step generator is consumed lazily: when the handler returns early, what
    the step would still have yielded or appended never happens, so the
    handler replays the step's events one by one. */
module Handler {
  import opened Common
  import opened Protocol
  import opened ToolRegistry
  import opened Llm
  import opened ToolAccumulator
  import opened AgentStream
  import opened AgentTrace
  import opened ToolRouting
  import opened Channel
  import Agent

  const NoToolsSent: string := "Agent requested tool call but sent no tools."
  const ProcessingErrorPrefix: string := "Error during agent processing: "

  /** The message of the exception raised once nested steps exhaust the
      interpreter's recursion limit, which `fuel` stands for. */
  const RecursionLimit: string := "maximum recursion depth exceeded"

  /** What the handler cannot see into: the LLM provider, `json.loads` of a
      response text, `hash`, the reading of an argument string, and the
      server tools. */
  datatype Env = Env(provider: StreamRequest -> ProviderRun, parse: string -> JsonView, hash: string -> int,
                     argField: (string, string) -> ArgLookup, serverRun: (string, string) -> ServerOutcome)

  /** The stream a step receives for the model and memory it starts with. */
  function StepItems(model: string, memory: seq<Message>, keys: Option<map<string, string>>, env: Env): seq<StreamItem>
  {
    ResponseItems(model, env.provider(BuildRequest(model, memory, None, keys)))
  }

  /** The events of one step. The stop flag never reaches it: the handler
      calls `agent.step(api_keys=api_keys)` without a `connection_state`
      (`backend/app/websocket/handler.py:32`), so that state is `None` and
      the step's stop check (`backend/core/agent/agent.py:161`) never
      fires; and the receive loop that would set the flag is itself
      waiting on this handler. */
  function StepEvents(model: string, memory: seq<Message>, keys: Option<map<string, string>>, env: Env): seq<StepEvent>
  {
    StepTrace(model, StepItems(model, memory, keys, env), [], env.parse, env.hash)
  }

  /** The first halting event at or after `i`, or the end. */
  function FirstHalt(t: seq<StepEvent>, i: nat): (n: nat)
    requires i <= |t|
    ensures i <= n <= |t| && (forall k :: i <= k < n ==> !Halts(t[k])) && (n < |t| ==> Halts(t[n]))
    decreases |t| - i
  {
    if i == |t| || Halts(t[i]) then i else FirstHalt(t, i + 1)
  }

  /** The `chunk` frames for the text yielded among events `lo` to `hi`. */
  function Chunks(t: seq<StepEvent>, lo: nat, hi: nat): seq<OutFrame>
    requires lo <= hi <= |t|
    decreases hi
  {
    if hi == lo then []
    else Chunks(t, lo, hi - 1) + (if t[hi - 1].Emit? && t[hi - 1].item.TextOut? then [ChunkFrame(t[hi - 1].item.text)] else [])
  }

  /** The messages appended by events `lo` to `hi`. */
  function RememberedIn(t: seq<StepEvent>, lo: nat, hi: nat): seq<Message>
    requires lo <= hi <= |t|
    decreases hi
  {
    if hi == lo then []
    else RememberedIn(t, lo, hi - 1) + (if t[hi - 1].Remember? then [t[hi - 1].msg] else [])
  }

  /** The cost held after events `lo` to `hi`, starting from `cost`: the
      last cost tuple among them, if any. */
  function CostIn(t: seq<StepEvent>, lo: nat, hi: nat, cost: Option<real>): Option<real>
    requires lo <= hi <= |t|
    decreases hi
  {
    if hi == lo then cost
    else if IsCost(t[hi - 1]) then Some(t[hi - 1].item.cost)
    else CostIn(t, lo, hi - 1, cost)
  }

  predicate Prefix<T(==)>(a: seq<T>, b: seq<T>)
  {
    |a| <= |b| && b[..|a|] == a
  }

  predicate Suffix<T(==)>(a: seq<T>, b: seq<T>)
  {
    |a| <= |b| && a == b[|b| - |a|..]
  }

  /** A frame after which the client's turn is over. */
  predicate Terminal(f: OutFrame)
  {
    f.EndFrame? || f.ErrorFrame? || f.AskUserRequestFrame? || f.TerminateRequestFrame?
  }

  predicate ProcessingError(f: OutFrame)
  {
    f.ErrorFrame? && StartsWith(f.content, ProcessingErrorPrefix)
  }

  /** The handler sent something after the first `before` frames, the last
      frame ends the turn, and when the turn failed it is the processing
      error. */
  predicate EndsTurn(sent: seq<OutFrame>, before: nat, finished: bool)
  {
    |sent| > before && Terminal(sent[|sent| - 1]) && (!finished ==> ProcessingError(sent[|sent| - 1]))
  }

  /** The pending `ask_user` id is kept or set to a truthy id. */
  predicate AskIdKept(before: Option<string>, after: Option<string>)
  {
    after == before || Truthy(after)
  }

  /** How the handling of a request ends: the handler goes on with the
      step, returns `(finished, cost)`, or an exception escapes. */
  datatype Reply = Proceed | Returned(finished: bool, cost: Option<real>) | Raised(message: string)

  // ---- `ask_user` and `terminate` ----

  function StopKey(c: ToolCall): string
  {
    if CategoryOf(c.name) == AskUser then "question" else "reason"
  }

  function StopDefault(c: ToolCall): string
  {
    if CategoryOf(c.name) == AskUser then "" else "Task finished."
  }

  function StopFrame(c: ToolCall, text: string): OutFrame
  {
    if CategoryOf(c.name) == AskUser then AskUserRequestFrame(text) else TerminateRequestFrame(text)
  }

  /** The outcome of a stopping call: an exception when its arguments do not
      parse, the end of the turn otherwise. */
  function StopReply(c: ToolCall, argField: (string, string) -> ArgLookup): Reply
  {
    match argField(c.arguments, StopKey(c))
    case BadJson(m) => Raised(m)
    case _ => Returned(true, None)
  }

  /** The one frame a stopping call sends: its question or reason, or the
      default when absent; nothing when its arguments do not parse. */
  function StopFrames(c: ToolCall, argField: (string, string) -> ArgLookup): seq<OutFrame>
  {
    match argField(c.arguments, StopKey(c))
    case BadJson(_) => []
    case Missing => [StopFrame(c, StopDefault(c))]
    case Present(v) => [StopFrame(c, v)]
  }

  /** `ask_user` stores its id, when truthy, before anything else. */
  function AskIdAfter(before: Option<string>, c: ToolCall): Option<string>
  {
    if CategoryOf(c.name) == AskUser && Truthy(c.id) then c.id else before
  }

  // ---- Lemmas about the definitions above ----

  lemma PrefixExtend<T>(a: seq<T>, b: seq<T>, c: seq<T>)
    requires Prefix(a, b)
    ensures Prefix(a, b + c)
  {
    assert (b + c)[..|a|] == b[..|a|];
  }

  lemma PrefixTrans<T>(a: seq<T>, b: seq<T>, c: seq<T>)
    requires Prefix(a, b) && Prefix(b, c)
    ensures Prefix(a, c)
  {
    assert c[..|a|] == c[..|b|][..|a|];
  }

  lemma PrefixOfAppend<T>(a: seq<T>, b: seq<T>)
    ensures Prefix(a, a + b)
  {
    assert (a + b)[..|a|] == a;
  }

  lemma SuffixTrans<T>(a: seq<T>, b: seq<T>, c: seq<T>)
    requires Suffix(a, b) && Suffix(b, c)
    ensures Suffix(a, c)
  {
    assert c[|c| - |b|..][|b| - |a|..] == c[|c| - |a|..];
  }

  lemma ProcessingErrorOf(m: string)
    ensures ProcessingError(ErrorFrame(ProcessingErrorPrefix + m))
  {
    assert (ProcessingErrorPrefix + m)[..|ProcessingErrorPrefix|] == ProcessingErrorPrefix;
  }

  /** The cost held while relaying a step is none until the step's very
      last event, and after that event it is the last cost the stream
      delivered: an early return never carries the step's own cost. */
  lemma {:induction false} CostCaptured(model: string, memory: seq<Message>, keys: Option<map<string, string>>, env: Env)
    ensures var t := StepEvents(model, memory, keys, env);
      (forall i :: 0 <= i < |t| ==> CostIn(t, 0, i, None) == None) &&
      CostIn(t, 0, |t|, None) == LastCost(StepItems(model, memory, keys, env), Halt(StepItems(model, memory, keys, env), []))
  {
    var items := StepItems(model, memory, keys, env);
    var t := StepEvents(model, memory, keys, env);
    CostIsLast(model, items, [], env.parse, env.hash);
    CostNoneBefore(t, |t|);
    var cost := LastCost(items, Halt(items, []));
    if cost.None? && |t| > 0 {
      assert !IsCost(t[|t| - 1]);
    }
  }

  lemma {:induction false} CostNoneBefore(t: seq<StepEvent>, n: nat)
    requires n <= |t| && forall k :: 0 <= k < |t| - 1 ==> !IsCost(t[k])
    ensures forall i :: 0 <= i < n && i < |t| ==> CostIn(t, 0, i, None) == None
    ensures n < |t| ==> CostIn(t, 0, n, None) == None
  {
    if n > 0 {
      CostNoneBefore(t, n - 1);
    }
  }

  lemma {:induction false} RememberedFromStart(t: seq<StepEvent>, n: nat)
    requires n <= |t|
    ensures RememberedIn(t, 0, n) == RememberedUpTo(t, n)
  {
    if n > 0 {
      RememberedFromStart(t, n - 1);
    }
  }

  // ---- The handler ----

  /** What the facts proved about every step trace give the relaying: each
      message is stored as built, at most one event halts, and no cost tuple
      comes before the last event. */
  predicate Relayable(t: seq<StepEvent>)
  {
    AllShaped(t) && QuietAfterHalt(t) && forall i :: 0 <= i < |t| ==> CostIn(t, 0, i, None) == None
  }

  /** What a stopping call `c` does once the frames `sent0` went out: its
      frame is sent (or, when its arguments do not parse, the processing
      error), an `ask_user` id is stored, memory and inbox stay, and the turn
      ends with the cost held so far. */
  predicate StopRelayed(c: ToolCall, argField: (string, string) -> ArgLookup, sent0: seq<OutFrame>, sent: seq<OutFrame>,
                        memory0: seq<Message>, memory: seq<Message>, inbox0: seq<Inbound>, inbox: seq<Inbound>,
                        ask0: Option<string>, ask: Option<string>, finished: bool, cost: Option<real>, cost0: Option<real>)
  {
    var h := StopReply(c, argField);
    memory == memory0 && inbox == inbox0 && ask == AskIdAfter(ask0, c) &&
    (h.Raised? ==>
       !finished && cost == cost0 && sent == sent0 + StopFrames(c, argField) + [ErrorFrame(ProcessingErrorPrefix + h.message)]) &&
    (h.Returned? ==> finished && cost == cost0 && sent == sent0 + StopFrames(c, argField))
  }

  /** What a request without a stopping call does once the frames `sent0`
      went out: the server calls leave their tool messages; the client
      calls go out in one frame and the results recorded by the wait are
      appended. The handler goes on exactly when there was no server call
      and no denial, and then nothing else happened. */
  predicate Served(calls: seq<ToolCall>, env: Env, sent0: seq<OutFrame>, sent: seq<OutFrame>,
                   memory0: seq<Message>, memory: seq<Message>, inbox0: seq<Inbound>, inbox: seq<Inbound>,
                   ask0: Option<string>, ask: Option<string>, proceed: bool)
  {
    var rt := Route(calls);
    var w := Awaited(rt.pending, inbox0);
    var results := if rt.client != [] then ToolMessages(w.a.recorded) else [];
    var asked := if rt.client != [] then [ToolCallRequestFrame(rt.client)] else [];
    Prefix(memory0 + ServerMessages(rt.server, env.serverRun) + results, memory) &&
    Prefix(sent0 + asked, sent) &&
    (proceed <==> rt.server == [] && !(rt.client != [] && w.a.denied)) &&
    (proceed ==>
       memory == memory0 + results && sent == sent0 + asked &&
       |inbox0| == |inbox| + (if rt.client != [] then w.consumed else 0) && ask == ask0)
  }

  /** A request without a stopping call at event `n`, relayed: as `Served`
      says, and when the handler goes on, the rest of the step's chunks and
      messages and `end`, with the last cost among them. */
  predicate ServedThenRest(t: seq<StepEvent>, n: nat, calls: seq<ToolCall>, env: Env,
                           sent0: seq<OutFrame>, sent: seq<OutFrame>, memory0: seq<Message>, memory: seq<Message>,
                           inbox0: seq<Inbound>, inbox: seq<Inbound>, ask0: Option<string>, ask: Option<string>,
                           finished: bool, cost: Option<real>, cost0: Option<real>)
    requires n < |t|
  {
    var rt := Route(calls);
    var w := Awaited(rt.pending, inbox0);
    var results := if rt.client != [] then ToolMessages(w.a.recorded) else [];
    var asked := if rt.client != [] then [ToolCallRequestFrame(rt.client)] else [];
    Prefix(memory0 + ServerMessages(rt.server, env.serverRun) + results, memory) &&
    Prefix(sent0 + asked, sent) &&
    (rt.server == [] && !(rt.client != [] && w.a.denied) ==>
       finished && cost == CostIn(t, n + 1, |t|, cost0) &&
       sent == sent0 + asked + Chunks(t, n + 1, |t|) + [EndFrame] &&
       memory == memory0 + results + RememberedIn(t, n + 1, |t|) &&
       |inbox0| == |inbox| + (if rt.client != [] then w.consumed else 0) && ask == ask0)
  }

  /** What relaying the trace `t` does to the frames sent, the memory, the
      inbox and the pending `ask_user` id. With no halting event: every
      delta as a chunk, every message appended, the last cost, and `end`.
      With an error dict or an empty request first: the chunks and messages
      before it, then its error frame, and no cost. With any other request
      first: the chunks and messages before it, then what its first
      stopping call does (`StopRelayed`), or, without one, what serving its
      calls does and, when the handler goes on, the rest of the step
      (`ServedThenRest`). */
  predicate Relayed(t: seq<StepEvent>, env: Env, sent0: seq<OutFrame>, sent: seq<OutFrame>, memory0: seq<Message>, memory: seq<Message>,
                    inbox0: seq<Inbound>, inbox: seq<Inbound>, ask0: Option<string>, ask: Option<string>,
                    finished: bool, cost: Option<real>)
  {
    var n := FirstHalt(t, 0);
    (n == |t| ==>
       finished && cost == CostIn(t, 0, |t|, None) && sent == sent0 + Chunks(t, 0, n) + [EndFrame] &&
       memory == memory0 + Remembered(t) && inbox == inbox0 && ask == ask0) &&
    (n < |t| && (t[n].item.ErrorOut? || t[n].item == RequestOut([])) ==>
       finished && cost == None &&
       sent == sent0 + Chunks(t, 0, n) + [ErrorFrame(if t[n].item.ErrorOut? then t[n].item.content else NoToolsSent)] &&
       memory == memory0 + RememberedUpTo(t, n) && inbox == inbox0 && ask == ask0) &&
    (n < |t| ==> Prefix(sent0 + Chunks(t, 0, n), sent) && Prefix(memory0 + RememberedUpTo(t, n), memory)) &&
    (n < |t| && t[n].item.RequestOut? && t[n].item.calls != [] && Stopper(t[n].item.calls) < |t[n].item.calls| ==>
       StopRelayed(t[n].item.calls[Stopper(t[n].item.calls)], env.argField, sent0 + Chunks(t, 0, n), sent,
                   memory0 + RememberedUpTo(t, n), memory, inbox0, inbox, ask0, ask, finished, cost, None)) &&
    (n < |t| && t[n].item.RequestOut? && t[n].item.calls != [] && Stopper(t[n].item.calls) == |t[n].item.calls| ==>
       ServedThenRest(t, n, t[n].item.calls, env, sent0 + Chunks(t, 0, n), sent,
                      memory0 + RememberedUpTo(t, n), memory, inbox0, inbox, ask0, ask, finished, cost, None))
  }

  /** One call of the handler. `fuel` is how many more nested steps the
      interpreter's stack allows; with none left the call fails at once.
      Otherwise the step's trace is relayed, and the cost returned after a
      step without halting events is the last one its stream delivered. */
  method RunAgentStepAndSend(agent: Agent.ChatAgent, socket: Socket, keys: Option<map<string, string>>, env: Env, fuel: nat)
    returns (finished: bool, cost: Option<real>)
    modifies agent, socket
    decreases fuel, 5
    ensures agent.modelName == old(agent.modelName) && socket.closedWith == old(socket.closedWith)
    ensures Prefix(old(agent.memory), agent.memory) && Suffix(socket.inbox, old(socket.inbox))
    ensures AskIdKept(old(agent.pendingAskId), agent.pendingAskId)
    ensures Prefix(old(socket.sent), socket.sent) && EndsTurn(socket.sent, |old(socket.sent)|, finished)
    ensures fuel == 0 ==>
      !finished && cost == None && socket.sent == old(socket.sent) + [ErrorFrame(ProcessingErrorPrefix + RecursionLimit)] &&
      agent.memory == old(agent.memory) && socket.inbox == old(socket.inbox)
    ensures fuel > 0 ==>
      var t := StepEvents(old(agent.modelName), old(agent.memory), keys, env);
      Relayed(t, env, old(socket.sent), socket.sent, old(agent.memory), agent.memory, old(socket.inbox), socket.inbox,
              old(agent.pendingAskId), agent.pendingAskId, finished, cost)
    ensures fuel > 0 ==>
      var items := StepItems(old(agent.modelName), old(agent.memory), keys, env);
      var t := StepEvents(old(agent.modelName), old(agent.memory), keys, env);
      FirstHalt(t, 0) == |t| ==> cost == LastCost(items, Halt(items, []))
  {
    if fuel == 0 {
      ProcessingErrorOf(RecursionLimit);
      socket.Send(ErrorFrame(ProcessingErrorPrefix + RecursionLimit));
      return false, None;
    }
    var t := StepEvents(agent.modelName, agent.memory, keys, env);
    StepTraceShaped(agent.modelName, StepItems(agent.modelName, agent.memory, keys, env), [], env.parse, env.hash);
    StepQuiet(agent.modelName, StepItems(agent.modelName, agent.memory, keys, env), [], env.parse, env.hash);
    CostCaptured(agent.modelName, agent.memory, keys, env);
    finished, cost := Relay(agent, socket, keys, env, fuel, t);
  }

  /** The `async for` over the step: the events before the first halting one
      are relayed; a step without one ends with `end`; an error dict is
      relayed and ends the turn; a request goes to `Requested`, and when the
      handler goes on, what is left of the step is relayed and `end` sent. */
  method Relay(agent: Agent.ChatAgent, socket: Socket, keys: Option<map<string, string>>, env: Env, fuel: nat,
               t: seq<StepEvent>)
    returns (finished: bool, cost: Option<real>)
    requires fuel > 0 && Relayable(t)
    modifies agent, socket
    decreases fuel, 4
    ensures agent.modelName == old(agent.modelName) && socket.closedWith == old(socket.closedWith)
    ensures Prefix(old(agent.memory), agent.memory) && Suffix(socket.inbox, old(socket.inbox))
    ensures AskIdKept(old(agent.pendingAskId), agent.pendingAskId)
    ensures Prefix(old(socket.sent), socket.sent) && EndsTurn(socket.sent, |old(socket.sent)|, finished)
    ensures Relayed(t, env, old(socket.sent), socket.sent, old(agent.memory), agent.memory, old(socket.inbox), socket.inbox,
                    old(agent.pendingAskId), agent.pendingAskId, finished, cost)
  {
    var n := FirstHalt(t, 0);
    RememberedFromStart(t, n);
    cost := RelayPlain(agent, socket, t, 0, n, None);
    ghost var sentHere := socket.sent;
    ghost var memoryHere := agent.memory;
    PrefixOfAppend(old(socket.sent), Chunks(t, 0, n));
    PrefixOfAppend(old(agent.memory), RememberedUpTo(t, n));
    if n == |t| {
      socket.Send(EndFrame);
      return true, cost;
    }
    var e := t[n];
    if e.item.ErrorOut? {
      socket.Send(ErrorFrame(e.item.content));
      PrefixOfAppend(sentHere, [ErrorFrame(e.item.content)]);
      PrefixTrans(old(socket.sent), sentHere, socket.sent);
      return true, cost;
    }
    finished, cost := RelayRequest(agent, socket, keys, env, fuel, t, n, cost);
    PrefixTrans(old(socket.sent), sentHere, socket.sent);
    PrefixTrans(old(agent.memory), memoryHere, agent.memory);
  }

  /** The request that halted the relaying at event `n`: `Requested`
      decides, and when the handler goes on, the rest of the step is
      relayed. */
  method RelayRequest(agent: Agent.ChatAgent, socket: Socket, keys: Option<map<string, string>>, env: Env, fuel: nat,
                      t: seq<StepEvent>, n: nat, cost0: Option<real>)
    returns (finished: bool, cost: Option<real>)
    requires fuel > 0 && n < |t| && t[n].Emit? && t[n].item.RequestOut?
    requires AllShaped(t) && forall k :: n < k < |t| ==> !Halts(t[k])
    modifies agent, socket
    decreases fuel, 3
    ensures agent.modelName == old(agent.modelName) && socket.closedWith == old(socket.closedWith)
    ensures Prefix(old(agent.memory), agent.memory) && Suffix(socket.inbox, old(socket.inbox))
    ensures AskIdKept(old(agent.pendingAskId), agent.pendingAskId)
    ensures Prefix(old(socket.sent), socket.sent) && EndsTurn(socket.sent, |old(socket.sent)|, finished)
    ensures t[n].item.calls == [] ==>
      finished && cost == cost0 && socket.sent == old(socket.sent) + [ErrorFrame(NoToolsSent)] &&
      agent.memory == old(agent.memory) && socket.inbox == old(socket.inbox) && agent.pendingAskId == old(agent.pendingAskId)
    ensures var calls := t[n].item.calls;
      calls != [] && Stopper(calls) < |calls| ==>
        StopRelayed(calls[Stopper(calls)], env.argField, old(socket.sent), socket.sent, old(agent.memory), agent.memory,
                    old(socket.inbox), socket.inbox, old(agent.pendingAskId), agent.pendingAskId, finished, cost, cost0)
    ensures var calls := t[n].item.calls;
      calls != [] && Stopper(calls) == |calls| ==>
        ServedThenRest(t, n, calls, env, old(socket.sent), socket.sent, old(agent.memory), agent.memory,
                       old(socket.inbox), socket.inbox, old(agent.pendingAskId), agent.pendingAskId, finished, cost, cost0)
  {
    var r;
    r, cost := Requested(agent, socket, keys, env, fuel, t[n].item.calls, cost0);
    if r.Returned? {
      return r.finished, cost;
    }
    ghost var sentThen := socket.sent;
    ghost var memoryThen := agent.memory;
    cost := RelayRest(agent, socket, t, n + 1, cost);
    PrefixTrans(old(socket.sent), sentThen, socket.sent);
    PrefixTrans(old(agent.memory), memoryThen, agent.memory);
    PrefixOfAppend(sentThen, Chunks(t, n + 1, |t|) + [EndFrame]);
    PrefixOfAppend(memoryThen, RememberedIn(t, n + 1, |t|));
    return true, cost;
  }

  /** What is left of a step once the handler goes on after a request: the
      remaining events are relayed and `end` is sent. */
  method RelayRest(agent: Agent.ChatAgent, socket: Socket, t: seq<StepEvent>, lo: nat, cost0: Option<real>)
    returns (cost: Option<real>)
    requires lo <= |t| && AllShaped(t) && forall k :: lo <= k < |t| ==> !Halts(t[k])
    modifies agent, socket
    ensures socket.sent == old(socket.sent) + Chunks(t, lo, |t|) + [EndFrame]
    ensures agent.memory == old(agent.memory) + RememberedIn(t, lo, |t|)
    ensures cost == CostIn(t, lo, |t|, cost0)
    ensures Prefix(old(socket.sent), socket.sent) && Prefix(old(agent.memory), agent.memory)
    ensures EndsTurn(socket.sent, |old(socket.sent)|, true)
    ensures agent.modelName == old(agent.modelName) && agent.pendingAskId == old(agent.pendingAskId)
    ensures socket.inbox == old(socket.inbox) && socket.closedWith == old(socket.closedWith)
  {
    cost := RelayPlain(agent, socket, t, lo, |t|, cost0);
    socket.Send(EndFrame);
    PrefixOfAppend(old(socket.sent), Chunks(t, lo, |t|) + [EndFrame]);
    PrefixOfAppend(old(agent.memory), RememberedIn(t, lo, |t|));
  }

  /** The relaying of events that do not halt: text becomes `chunk` frames,
      messages are appended as the step appends them, and the last cost
      tuple is kept. */
  method RelayPlain(agent: Agent.ChatAgent, socket: Socket, t: seq<StepEvent>, lo: nat, hi: nat, cost0: Option<real>)
    returns (cost: Option<real>)
    requires lo <= hi <= |t| && AllShaped(t) && forall k :: lo <= k < hi ==> !Halts(t[k])
    modifies agent, socket
    ensures socket.sent == old(socket.sent) + Chunks(t, lo, hi)
    ensures agent.memory == old(agent.memory) + RememberedIn(t, lo, hi)
    ensures cost == CostIn(t, lo, hi, cost0)
    ensures agent.modelName == old(agent.modelName) && agent.pendingAskId == old(agent.pendingAskId)
    ensures socket.inbox == old(socket.inbox) && socket.closedWith == old(socket.closedWith)
  {
    cost := cost0;
    var i := lo;
    while i < hi
      invariant lo <= i <= hi
      invariant socket.sent == old(socket.sent) + Chunks(t, lo, i)
      invariant agent.memory == old(agent.memory) + RememberedIn(t, lo, i)
      invariant cost == CostIn(t, lo, i, cost0)
      invariant agent.modelName == old(agent.modelName) && agent.pendingAskId == old(agent.pendingAskId)
      invariant socket.inbox == old(socket.inbox) && socket.closedWith == old(socket.closedWith)
    {
      var e := t[i];
      if e.Remember? {
        ShapedStored(e.msg);
        AppendAssoc(old(agent.memory), RememberedIn(t, lo, i), [e.msg]);
        agent.AddMessageToMemory(e.msg.role, e.msg.content, e.msg.toolCalls, e.msg.toolCallId);
      } else if e.item.CostOut? {
        cost := Some(e.item.cost);
      } else if e.item.TextOut? {
        AppendAssoc(old(socket.sent), Chunks(t, lo, i), [ChunkFrame(e.item.text)]);
        socket.Send(ChunkFrame(e.item.text));
      }
      i := i + 1;
    }
  }

  /** A request event met while relaying: an empty request ends the turn
      with an error frame; otherwise `HandleRequest` decides, and an
      exception escaping it becomes the processing error frame. */
  method Requested(agent: Agent.ChatAgent, socket: Socket, keys: Option<map<string, string>>, env: Env, fuel: nat,
                   calls: seq<ToolCall>, cost0: Option<real>)
    returns (r: Reply, cost: Option<real>)
    requires fuel > 0
    modifies agent, socket
    decreases fuel, 2
    ensures agent.modelName == old(agent.modelName) && socket.closedWith == old(socket.closedWith)
    ensures Prefix(old(agent.memory), agent.memory) && Suffix(socket.inbox, old(socket.inbox))
    ensures AskIdKept(old(agent.pendingAskId), agent.pendingAskId)
    ensures Prefix(old(socket.sent), socket.sent)
    ensures r == Proceed || r.Returned?
    ensures r.Returned? ==> EndsTurn(socket.sent, |old(socket.sent)|, r.finished)
    ensures r == Proceed ==> cost == cost0
    ensures calls == [] ==>
      r == Returned(true, cost0) && cost == cost0 && socket.sent == old(socket.sent) + [ErrorFrame(NoToolsSent)] &&
      agent.memory == old(agent.memory) && socket.inbox == old(socket.inbox) && agent.pendingAskId == old(agent.pendingAskId)
    ensures calls != [] && Stopper(calls) < |calls| ==>
      r.Returned? &&
      StopRelayed(calls[Stopper(calls)], env.argField, old(socket.sent), socket.sent, old(agent.memory), agent.memory,
                  old(socket.inbox), socket.inbox, old(agent.pendingAskId), agent.pendingAskId, r.finished, cost, cost0)
    ensures calls != [] && Stopper(calls) == |calls| ==>
      Served(calls, env, old(socket.sent), socket.sent, old(agent.memory), agent.memory,
             old(socket.inbox), socket.inbox, old(agent.pendingAskId), agent.pendingAskId, r == Proceed)
  {
    if calls == [] {
      socket.Send(ErrorFrame(NoToolsSent));
      PrefixOfAppend(old(socket.sent), [ErrorFrame(NoToolsSent)]);
      return Returned(true, cost0), cost0;
    }
    var h := HandleRequest(agent, socket, keys, env, fuel, calls);
    cost := cost0;
    match h
    case Proceed =>
      r := Proceed;
    case Returned(f, c) =>
      cost := if cost0.Some? then cost0 else c;
      r := Returned(f, cost);
    case Raised(m) =>
      ghost var before := socket.sent;
      ProcessingErrorOf(m);
      socket.Send(ErrorFrame(ProcessingErrorPrefix + m));
      PrefixOfAppend(before, [ErrorFrame(ProcessingErrorPrefix + m)]);
      PrefixTrans(old(socket.sent), before, socket.sent);
      r := Returned(false, cost0);
  }

  /** A non-empty request. Its calls are sorted up to the first `ask_user`
      or `terminate`; such a call alone decides the outcome (the calls
      sorted before it are neither run nor sent). Otherwise every server
      call leaves its tool message, the client calls go out in one frame
      and their results are awaited, and the next step runs after server
      calls or a denial. */
  method HandleRequest(agent: Agent.ChatAgent, socket: Socket, keys: Option<map<string, string>>, env: Env, fuel: nat,
                       calls: seq<ToolCall>)
    returns (r: Reply)
    requires fuel > 0 && calls != []
    modifies agent, socket
    decreases fuel, 1
    ensures agent.modelName == old(agent.modelName) && socket.closedWith == old(socket.closedWith)
    ensures Prefix(old(agent.memory), agent.memory) && Suffix(socket.inbox, old(socket.inbox))
    ensures AskIdKept(old(agent.pendingAskId), agent.pendingAskId)
    ensures Prefix(old(socket.sent), socket.sent)
    ensures r.Returned? ==> EndsTurn(socket.sent, |old(socket.sent)|, r.finished)
    ensures var s := Stopper(calls);
      s < |calls| ==>
        r == StopReply(calls[s], env.argField) && socket.sent == old(socket.sent) + StopFrames(calls[s], env.argField) &&
        agent.pendingAskId == AskIdAfter(old(agent.pendingAskId), calls[s]) &&
        agent.memory == old(agent.memory) && socket.inbox == old(socket.inbox)
    ensures var rt := Route(calls);
      var w := Awaited(rt.pending, old(socket.inbox));
      var results := if rt.client != [] then ToolMessages(w.a.recorded) else [];
      var asked := if rt.client != [] then [ToolCallRequestFrame(rt.client)] else [];
      Stopper(calls) == |calls| ==>
        !r.Raised? &&
        Prefix(old(agent.memory) + ServerMessages(rt.server, env.serverRun) + results, agent.memory) &&
        Prefix(old(socket.sent) + asked, socket.sent) &&
        (r == Proceed <==> rt.server == [] && !(rt.client != [] && w.a.denied)) &&
        (r == Proceed ==>
           agent.memory == old(agent.memory) + results && socket.sent == old(socket.sent) + asked &&
           |old(socket.inbox)| == |socket.inbox| + (if rt.client != [] then w.consumed else 0) &&
           agent.pendingAskId == old(agent.pendingAskId))
  {
    var server, client, pending, s := Classify(calls);
    if s < |calls| {
      r := StopCall(agent, socket, calls[s], env.argField);
      PrefixOfAppend(old(socket.sent), StopFrames(calls[s], env.argField));
      return;
    }
    r := Dispatch(agent, socket, keys, env, fuel, server, client, pending);
  }

  /** The calls of a request without a stopping call, already sorted. */
  method Dispatch(agent: Agent.ChatAgent, socket: Socket, keys: Option<map<string, string>>, env: Env, fuel: nat,
                  server: seq<ToolCall>, client: seq<ToolCall>, pending: Pending)
    returns (r: Reply)
    requires fuel > 0
    modifies agent, socket
    decreases fuel, 0
    ensures agent.modelName == old(agent.modelName) && socket.closedWith == old(socket.closedWith)
    ensures Prefix(old(agent.memory), agent.memory) && Suffix(socket.inbox, old(socket.inbox))
    ensures AskIdKept(old(agent.pendingAskId), agent.pendingAskId)
    ensures Prefix(old(socket.sent), socket.sent)
    ensures r.Returned? ==> EndsTurn(socket.sent, |old(socket.sent)|, r.finished)
    ensures var w := Awaited(pending, old(socket.inbox));
      var results := if client != [] then ToolMessages(w.a.recorded) else [];
      var asked := if client != [] then [ToolCallRequestFrame(client)] else [];
      !r.Raised? &&
      Prefix(old(agent.memory) + ServerMessages(server, env.serverRun) + results, agent.memory) &&
      Prefix(old(socket.sent) + asked, socket.sent) &&
      (r == Proceed <==> server == [] && !(client != [] && w.a.denied)) &&
      (r == Proceed ==>
         agent.memory == old(agent.memory) + results && socket.sent == old(socket.sent) + asked &&
         |old(socket.inbox)| == |socket.inbox| + (if client != [] then w.consumed else 0) &&
         agent.pendingAskId == old(agent.pendingAskId))
  {
    var denied := ServeAndAsk(agent, socket, server, client, pending, env.serverRun);
    if denied || server != [] {
      ghost var sentHere := socket.sent;
      ghost var memoryHere := agent.memory;
      ghost var inboxHere := socket.inbox;
      PrefixOfAppend(old(socket.sent), sentHere[|old(socket.sent)|..]);
      PrefixOfAppend(old(agent.memory), memoryHere[|old(agent.memory)|..]);
      var f, c := NestedStep(agent, socket, keys, env, fuel - 1);
      PrefixTrans(old(socket.sent), sentHere, socket.sent);
      PrefixTrans(old(agent.memory), memoryHere, agent.memory);
      SuffixTrans(socket.inbox, inboxHere, old(socket.inbox));
      return Returned(f, c);
    }
    return Proceed;
  }

  /** The nested `run_agent_step_and_send`, as its caller relies on it. */
  method NestedStep(agent: Agent.ChatAgent, socket: Socket, keys: Option<map<string, string>>, env: Env, fuel: nat)
    returns (finished: bool, cost: Option<real>)
    modifies agent, socket
    decreases fuel, 6
    ensures agent.modelName == old(agent.modelName) && socket.closedWith == old(socket.closedWith)
    ensures Prefix(old(agent.memory), agent.memory) && Suffix(socket.inbox, old(socket.inbox))
    ensures AskIdKept(old(agent.pendingAskId), agent.pendingAskId)
    ensures Prefix(old(socket.sent), socket.sent) && EndsTurn(socket.sent, |old(socket.sent)|, finished)
  {
    finished, cost := RunAgentStepAndSend(agent, socket, keys, env, fuel);
  }

  /** The server calls are run and their tool messages appended; then the
      client calls, if any, go out in one frame and their results are
      awaited. */
  method ServeAndAsk(agent: Agent.ChatAgent, socket: Socket, server: seq<ToolCall>, client: seq<ToolCall>,
                     pending: Pending, run: (string, string) -> ServerOutcome)
    returns (denied: bool)
    modifies agent, socket
    ensures var w := Awaited(pending, old(socket.inbox));
      denied == (client != [] && w.a.denied) &&
      agent.memory == old(agent.memory) + ServerMessages(server, run) + (if client != [] then ToolMessages(w.a.recorded) else []) &&
      socket.sent == old(socket.sent) + (if client != [] then [ToolCallRequestFrame(client)] else []) &&
      Suffix(socket.inbox, old(socket.inbox)) &&
      |old(socket.inbox)| == |socket.inbox| + (if client != [] then w.consumed else 0)
    ensures agent.modelName == old(agent.modelName) && agent.pendingAskId == old(agent.pendingAskId)
    ensures socket.closedWith == old(socket.closedWith)
  {
    RunServerCalls(agent, server, run);
    denied := false;
    if client != [] {
      socket.Send(ToolCallRequestFrame(client));
      var got := AwaitClientResults(agent, socket, pending);
      denied := got.a.denied;
      assert agent.memory == old(agent.memory) + ServerMessages(server, run) + ToolMessages(got.a.recorded);
    } else {
      AppendEmpty(agent.memory);
    }
  }

  /** The sorting loop over a request's calls, stopping at the first
      `ask_user` or `terminate`. */
  method Classify(calls: seq<ToolCall>) returns (server: seq<ToolCall>, client: seq<ToolCall>, pending: Pending, s: nat)
    ensures s == Stopper(calls) && Routing(server, client, pending) == Route(calls)
  {
    server, client, pending, s := [], [], map[], 0;
    while s < |calls| && !Stops(calls[s])
      invariant s <= Stopper(calls)
      invariant Routing(server, client, pending) == RouteUpTo(calls, s)
    {
      var c := calls[s];
      var category := CategoryOf(c.name);
      if category == ServerTool {
        server := server + [c];
      } else if category == ClientTool {
        client := client + [c];
        pending := pending[c.id := c];
      }
      s := s + 1;
    }
  }

  /** An `ask_user` or `terminate` call: the id is stored first for
      `ask_user`, then the question or reason is read from the arguments
      and sent. */
  method StopCall(agent: Agent.ChatAgent, socket: Socket, c: ToolCall, argField: (string, string) -> ArgLookup)
    returns (r: Reply)
    requires Stops(c)
    modifies agent, socket
    ensures r == StopReply(c, argField) && socket.sent == old(socket.sent) + StopFrames(c, argField)
    ensures agent.pendingAskId == AskIdAfter(old(agent.pendingAskId), c) && AskIdKept(old(agent.pendingAskId), agent.pendingAskId)
    ensures agent.memory == old(agent.memory) && agent.modelName == old(agent.modelName)
    ensures socket.inbox == old(socket.inbox) && socket.closedWith == old(socket.closedWith)
  {
    if CategoryOf(c.name) == AskUser && Truthy(c.id) {
      agent.pendingAskId := c.id;
    }
    var lookup := argField(c.arguments, StopKey(c));
    if lookup.BadJson? {
      return Raised(lookup.message);
    }
    var text := if lookup.Present? then lookup.value else StopDefault(c);
    socket.Send(StopFrame(c, text));
    return Returned(true, None);
  }

  /** The server calls in order, each leaving one tool message. */
  method RunServerCalls(agent: Agent.ChatAgent, server: seq<ToolCall>, run: (string, string) -> ServerOutcome)
    modifies agent
    ensures agent.memory == old(agent.memory) + ServerMessages(server, run)
    ensures agent.modelName == old(agent.modelName) && agent.pendingAskId == old(agent.pendingAskId)
  {
    var i := 0;
    while i < |server|
      invariant i <= |server|
      invariant agent.memory == old(agent.memory) + ServerMessages(server[..i], run)
      invariant agent.modelName == old(agent.modelName) && agent.pendingAskId == old(agent.pendingAskId)
    {
      var c := server[i];
      var content: string;
      match run(c.name, c.arguments) {
        case ToolOk(result) =>
          content := result;
        case ToolRaised(m) =>
          content := "Error executing tool " + c.name + ": " + m;
      }
      assert server[..i + 1][..i] == server[..i];
      AppendAssoc(old(agent.memory), ServerMessages(server[..i], run), [ToolMessage(c.id, content)]);
      agent.AddMessageToMemory("tool", Some(Text(content)), None, c.id);
      i := i + 1;
    }
    assert server[..i] == server;
  }

  /** The wait for client results: frames are read until nothing is
      pending, a denial is recorded, or the wait breaks. */
  method AwaitClientResults(agent: Agent.ChatAgent, socket: Socket, pending: Pending) returns (w: Waiting)
    modifies agent, socket
    ensures w == Awaited(pending, old(socket.inbox))
    ensures w.consumed <= |old(socket.inbox)| && socket.inbox == old(socket.inbox)[w.consumed..]
    ensures agent.memory == old(agent.memory) + ToolMessages(w.a.recorded)
    ensures agent.modelName == old(agent.modelName) && agent.pendingAskId == old(agent.pendingAskId)
    ensures socket.sent == old(socket.sent) && socket.closedWith == old(socket.closedWith)
  {
    ghost var inbox := socket.inbox;
    var w0 := Waiting(Absorbed(pending, [], false), 0, false);
    w := w0;
    assert agent.memory == old(agent.memory) + ToolMessages([]);
    while !Over(w)
      invariant w.consumed <= |inbox| && w == WaitUpTo(w0, inbox, w.consumed)
      invariant socket.inbox == inbox[w.consumed..]
      invariant agent.memory == old(agent.memory) + ToolMessages(w.a.recorded)
      invariant agent.modelName == old(agent.modelName) && agent.pendingAskId == old(agent.pendingAskId)
      invariant socket.sent == old(socket.sent) && socket.closedWith == old(socket.closedWith)
      decreases |socket.inbox|
    {
      var f := socket.Receive();
      if f.None? {
        assert w.consumed == |inbox|;
        w := w.(broken := true);
        return;
      }
      assert f.value == inbox[w.consumed];
      var next := w.(consumed := w.consumed + 1);
      match f.value {
        case Malformed =>
          next := next.(broken := true);
        case ToolResult(results) =>
          if results.ResultsNotList? {
            next := next.(broken := true);
          } else if results.ResultsList? {
            var a := AbsorbResults(agent, w.a, results.entries, old(agent.memory));
            next := next.(a := a);
          }
        case _ =>
      }
      w := next;
    }
    WaitOverStays(w0, inbox, w.consumed, |inbox|);
  }

  /** Once the wait is over, further frames change nothing. */
  lemma {:induction false} WaitOverStays(w0: Waiting, inbox: seq<Inbound>, j: nat, n: nat)
    requires j <= n <= |inbox| && Over(WaitUpTo(w0, inbox, j))
    ensures WaitUpTo(w0, inbox, n) == WaitUpTo(w0, inbox, j)
    decreases n - j
  {
    if j < n {
      WaitOverStays(w0, inbox, j, n - 1);
    }
  }

  /** Once a denial is recorded, further entries change nothing. */
  lemma {:induction false} AbsorbDeniedStays(a: Absorbed, es: seq<ResultEntry>, j: nat, n: nat)
    requires j <= n <= |es| && AbsorbUpTo(a, es, j).denied
    ensures AbsorbUpTo(a, es, n) == AbsorbUpTo(a, es, j)
    decreases n - j
  {
    if j < n {
      AbsorbDeniedStays(a, es, j, n - 1);
    }
  }

  /** The entries of one `tool_result` frame: each one whose id is pending
      is appended as a tool message and its id deleted; a denial stops the
      loop. */
  method AbsorbResults(agent: Agent.ChatAgent, a: Absorbed, es: seq<ResultEntry>, ghost base: seq<Message>)
    returns (b: Absorbed)
    requires !a.denied && agent.memory == base + ToolMessages(a.recorded)
    modifies agent
    ensures b == Absorb(a, es)
    ensures agent.memory == base + ToolMessages(b.recorded)
    ensures agent.modelName == old(agent.modelName) && agent.pendingAskId == old(agent.pendingAskId)
  {
    b := a;
    var i := 0;
    while i < |es| && !b.denied
      invariant i <= |es| && b == AbsorbUpTo(a, es, i)
      invariant agent.memory == base + ToolMessages(b.recorded)
      invariant agent.modelName == old(agent.modelName) && agent.pendingAskId == old(agent.pendingAskId)
    {
      var e := es[i];
      if e.toolCallId in b.pending {
        ToolMessagesSnoc(b.recorded, e);
        AppendAssoc(base, ToolMessages(b.recorded), [ToolMessage(e.toolCallId, e.content)]);
        agent.AddMessageToMemory("tool", Some(Text(e.content)), None, e.toolCallId);
        b := Absorbed(b.pending - {e.toolCallId}, b.recorded + [e], Contains(e.content, DeniedMarker));
      }
      i := i + 1;
    }
    if i < |es| {
      AbsorbDeniedStays(a, es, i, |es|);
    }
  }
}
