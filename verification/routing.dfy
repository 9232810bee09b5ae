/** The pure rules of the websocket handler's tool-call branch: how a
    request's calls are sorted by name, what running a server tool leaves in
    memory, and how client results are matched against the table of calls
    still pending while the handler waits for them. */
module ToolRouting {
  import opened Common
  import opened Protocol
  import opened ToolRegistry

  /** The marker in a client result that makes the handler move on at once. */
  const DeniedMarker: string := "User denied execution"

  /** `json.loads(arguments).get(key)` as far as the handler looks at it:
      the arguments do not parse (or are not an object), the key is absent,
      or its value (serialised as sent on). */
  datatype ArgLookup = BadJson(message: string) | Missing | Present(value: string)

  /** What running a server tool with its name and argument string gives:
      its result, or the exception raised (also when the arguments do not
      parse). */
  datatype ServerOutcome = ToolOk(result: string) | ToolRaised(message: string)

  /** The table of client calls awaiting results, keyed by call id (a
      missing id is the key `None`, as in the source's dict). */
  type Pending = map<Option<string>, ToolCall>

  // ---- Sorting the calls of a request ----

  /** A call that ends the handler's run on the spot. */
  predicate Stops(c: ToolCall)
  {
    CategoryOf(c.name) == AskUser || CategoryOf(c.name) == Terminate
  }

  /** Where the sorting loop stops: the first `ask_user` or `terminate`
      call, or the end of the request. */
  function Stopper(calls: seq<ToolCall>): (s: nat)
    ensures s <= |calls|
    ensures forall k :: 0 <= k < s ==> !Stops(calls[k])
    ensures s < |calls| ==> Stops(calls[s])
  {
    if calls == [] then 0
    else if Stops(calls[0]) then 0
    else 1 + Stopper(calls[1..])
  }

  /** The server calls, the client calls and the pending table. */
  datatype Routing = Routing(server: seq<ToolCall>, client: seq<ToolCall>, pending: Pending)

  /** The sorting of the first `n` calls: server tools and client tools
      each keep their order, a client call is entered in the pending table
      under its id (a later call with the same id replaces an earlier one),
      and any other name is skipped. */
  function RouteUpTo(calls: seq<ToolCall>, n: nat): Routing
    requires n <= |calls|
  {
    if n == 0 then Routing([], [], map[])
    else
      var r := RouteUpTo(calls, n - 1);
      var c := calls[n - 1];
      match CategoryOf(c.name)
      case ServerTool => r.(server := r.server + [c])
      case ClientTool => r.(client := r.client + [c], pending := r.pending[c.id := c])
      case _ => r
  }

  /** The sorting of a request's calls up to its first stopping call. */
  function Route(calls: seq<ToolCall>): Routing
  {
    RouteUpTo(calls, Stopper(calls))
  }

  /** The sorting is a partition by category: the server list holds exactly
      the calls of a server tool, the client list exactly those of a client
      tool, the pending table has exactly the client calls' ids, each
      mapped to a client call with that id, and unknown names are dropped. */
  lemma {:induction false} RouteSorts(calls: seq<ToolCall>, n: nat)
    requires n <= |calls|
    ensures var r := RouteUpTo(calls, n);
      (forall c :: c in r.server <==> c in calls[..n] && CategoryOf(c.name) == ServerTool) &&
      (forall c :: c in r.client <==> c in calls[..n] && CategoryOf(c.name) == ClientTool) &&
      (forall id :: id in r.pending <==> exists c :: c in r.client && c.id == id) &&
      (forall id :: id in r.pending ==> r.pending[id] in r.client && r.pending[id].id == id) &&
      |r.server| + |r.client| <= n
  {
    if n > 0 {
      RouteSorts(calls, n - 1);
      assert calls[..n] == calls[..n - 1] + [calls[n - 1]];
    }
  }

  // ---- Server tools ----

  /** The tool message for a call id and a result. */
  function ToolMessage(id: Option<string>, content: string): Message
  {
    NewMessage("tool", Some(Text(content)), None, id)
  }

  /** What a server call leaves as its tool message's content. */
  function ServerResult(c: ToolCall, run: (string, string) -> ServerOutcome): string
  {
    match run(c.name, c.arguments)
    case ToolOk(r) => r
    case ToolRaised(m) => "Error executing tool " + c.name + ": " + m
  }

  /** The tool messages the server calls append, in order. */
  function ServerMessages(cs: seq<ToolCall>, run: (string, string) -> ServerOutcome): seq<Message>
  {
    if cs == [] then []
    else ServerMessages(cs[..|cs| - 1], run) + [ToolMessage(cs[|cs| - 1].id, ServerResult(cs[|cs| - 1], run))]
  }

  /** Each server call appends exactly one tool message, with the call's id
      and its result or the error text. */
  lemma {:induction false} ServerMessagesMatch(cs: seq<ToolCall>, run: (string, string) -> ServerOutcome)
    ensures var ms := ServerMessages(cs, run);
      |ms| == |cs| &&
      forall k :: 0 <= k < |cs| ==>
        ms[k].role == "tool" && ms[k].toolCallId == cs[k].id && ms[k].content == Some(Text(ServerResult(cs[k], run)))
  {
    if cs != [] {
      ServerMessagesMatch(cs[..|cs| - 1], run);
    }
  }

  // ---- Client results ----

  /** The state of the result loop: the calls still pending, the results
      recorded so far, and whether a recorded result was a denial. */
  datatype Absorbed = Absorbed(pending: Pending, recorded: seq<ResultEntry>, denied: bool)

  /** One result entry: recorded (and its id deleted) when its id is
      pending; ignored otherwise, and ignored altogether after a denial,
      since the handler has moved on. */
  function AbsorbStep(a: Absorbed, e: ResultEntry): Absorbed
  {
    if a.denied || e.toolCallId !in a.pending then a
    else Absorbed(a.pending - {e.toolCallId}, a.recorded + [e], Contains(e.content, DeniedMarker))
  }

  /** The first `n` entries of one `tool_result` frame. */
  function AbsorbUpTo(a: Absorbed, es: seq<ResultEntry>, n: nat): Absorbed
    requires n <= |es|
  {
    if n == 0 then a else AbsorbStep(AbsorbUpTo(a, es, n - 1), es[n - 1])
  }

  function Absorb(a: Absorbed, es: seq<ResultEntry>): Absorbed
  {
    AbsorbUpTo(a, es, |es|)
  }

  /** The state of the wait: the result loop's state, how many frames were
      read, and whether the wait was broken off (a frame that is not JSON,
      results that cannot be iterated, or the client gone). */
  datatype Waiting = Waiting(a: Absorbed, consumed: nat, broken: bool)

  /** The wait is over: nothing is pending, a denial came, or it broke. */
  predicate Over(w: Waiting)
  {
    w.a.pending == map[] || w.a.denied || w.broken
  }

  /** One frame read while waiting: a `tool_result` with a list of results
      is absorbed, one with no results changes nothing, and every other
      frame type is read and dropped. */
  function WaitStep(w: Waiting, f: Inbound): Waiting
  {
    if Over(w) then w
    else
      var w' := w.(consumed := w.consumed + 1);
      match f
      case Malformed => w'.(broken := true)
      case ToolResult(ResultsNotList) => w'.(broken := true)
      case ToolResult(ResultsList(es)) => w'.(a := Absorb(w.a, es))
      case _ => w'
  }

  function WaitUpTo(w: Waiting, inbox: seq<Inbound>, n: nat): Waiting
    requires n <= |inbox|
  {
    if n == 0 then w else WaitStep(WaitUpTo(w, inbox, n - 1), inbox[n - 1])
  }

  /** The whole wait for the calls in `pending`, over the frames the
      client sends; when the frames run out with calls still pending, the
      next receive raises and the wait breaks. */
  function Awaited(pending: Pending, inbox: seq<Inbound>): Waiting
  {
    var w := WaitUpTo(Waiting(Absorbed(pending, [], false), 0, false), inbox, |inbox|);
    if Over(w) then w else w.(broken := true)
  }

  /** The tool messages appended for recorded results, in order. */
  function ToolMessages(rs: seq<ResultEntry>): seq<Message>
  {
    if rs == [] then []
    else ToolMessages(rs[..|rs| - 1]) + [ToolMessage(rs[|rs| - 1].toolCallId, rs[|rs| - 1].content)]
  }

  lemma ToolMessagesSnoc(rs: seq<ResultEntry>, e: ResultEntry)
    ensures ToolMessages(rs + [e]) == ToolMessages(rs) + [ToolMessage(e.toolCallId, e.content)]
  {
    assert (rs + [e])[..|rs|] == rs;
  }

  /** The ids of recorded results. */
  function RecordedIds(rs: seq<ResultEntry>): set<Option<string>>
  {
    set k | 0 <= k < |rs| :: rs[k].toolCallId
  }

  /** Each recorded result carries its own id. */
  predicate IdsDistinct(rs: seq<ResultEntry>)
  {
    forall j, k :: 0 <= j < k < |rs| ==> rs[j].toolCallId != rs[k].toolCallId
  }

  /** The bookkeeping of the wait for the calls in `p0`: every id of `p0`
      is either still pending (with its call) or recorded, never both; only
      ids of `p0` are recorded; and none twice. */
  predicate Accounted(p0: Pending, a: Absorbed)
  {
    (forall id :: id in a.pending ==> id in p0 && a.pending[id] == p0[id]) &&
    a.pending.Keys !! RecordedIds(a.recorded) &&
    a.pending.Keys + RecordedIds(a.recorded) == p0.Keys &&
    IdsDistinct(a.recorded)
  }

  lemma AbsorbStepAccounted(p0: Pending, a: Absorbed, e: ResultEntry)
    requires Accounted(p0, a)
    ensures Accounted(p0, AbsorbStep(a, e))
    ensures a.recorded <= AbsorbStep(a, e).recorded
  {
    if !a.denied && e.toolCallId in a.pending {
      var rs := a.recorded + [e];
      assert RecordedIds(rs) == RecordedIds(a.recorded) + {e.toolCallId} by {
        forall id ensures id in RecordedIds(rs) <==> id in RecordedIds(a.recorded) || id == e.toolCallId {
          if id in RecordedIds(rs) {
            var k :| 0 <= k < |rs| && rs[k].toolCallId == id;
            if k < |a.recorded| {
              assert a.recorded[k] == rs[k];
            }
          }
          if id in RecordedIds(a.recorded) {
            var k :| 0 <= k < |a.recorded| && a.recorded[k].toolCallId == id;
            assert rs[k] == a.recorded[k];
          }
          if id == e.toolCallId {
            assert rs[|a.recorded|] == e;
          }
        }
      }
      forall j, k | 0 <= j < k < |rs|
        ensures rs[j].toolCallId != rs[k].toolCallId
      {
        if k == |a.recorded| {
          assert rs[j] == a.recorded[j];
          assert rs[j].toolCallId in RecordedIds(a.recorded);
        } else {
          assert rs[j] == a.recorded[j] && rs[k] == a.recorded[k];
        }
      }
    }
  }

  lemma {:induction false} AbsorbAccounted(p0: Pending, a: Absorbed, es: seq<ResultEntry>, n: nat)
    requires n <= |es| && Accounted(p0, a)
    ensures Accounted(p0, AbsorbUpTo(a, es, n))
    ensures a.recorded <= AbsorbUpTo(a, es, n).recorded
  {
    if n > 0 {
      AbsorbAccounted(p0, a, es, n - 1);
      AbsorbStepAccounted(p0, AbsorbUpTo(a, es, n - 1), es[n - 1]);
    }
  }

  lemma {:induction false} WaitAccounted(p0: Pending, w: Waiting, inbox: seq<Inbound>, n: nat)
    requires n <= |inbox| && Accounted(p0, w.a)
    ensures Accounted(p0, WaitUpTo(w, inbox, n).a)
    ensures WaitUpTo(w, inbox, n).consumed <= w.consumed + n
  {
    if n > 0 {
      WaitAccounted(p0, w, inbox, n - 1);
      var v := WaitUpTo(w, inbox, n - 1);
      if !Over(v) && inbox[n - 1].ToolResult? && inbox[n - 1].results.ResultsList? {
        AbsorbAccounted(p0, v.a, inbox[n - 1].results.entries, |inbox[n - 1].results.entries|);
      }
    }
  }

  /** Each pending id is recorded at most once, only pending ids are
      recorded (unknown and repeated ids are ignored), and a wait that ends
      without a denial or a break has recorded every pending call. */
  lemma RecordedAtMostOnce(pending: Pending, inbox: seq<Inbound>)
    ensures var w := Awaited(pending, inbox);
      IdsDistinct(w.a.recorded) &&
      RecordedIds(w.a.recorded) <= pending.Keys &&
      w.a.pending.Keys + RecordedIds(w.a.recorded) == pending.Keys &&
      (!w.a.denied && !w.broken ==> RecordedIds(w.a.recorded) == pending.Keys) &&
      w.consumed <= |inbox|
  {
    var w0 := Waiting(Absorbed(pending, [], false), 0, false);
    assert RecordedIds([]) == {};
    WaitAccounted(pending, w0, inbox, |inbox|);
  }
}
