/** The table of questions the browser agent has put to a user and is
    waiting on, `PENDING_AGENT_QUESTIONS`: for each connection key, the
    request ids still registered and the state of each one's future. The
    browser tool's `ask_human` registers and forgets entries, a
    `user_response` frame resolves them, and the end of the tool or of the
    connection cancels what is left. */
module Questions {
  import opened Common
  import opened Protocol
  import opened Channel

  /** An `asyncio.Future`: not done yet, done with an answer, or cancelled
      (which also counts as done). */
  datatype FutureState = Pending | Done(answer: string) | Cancelled

  type Table = map<string, map<string, FutureState>>

  /** `pending_questions_dict.get(ws, {})` */
  function Entries(t: Table, ws: string): map<string, FutureState>
  {
    if ws in t then t[ws] else map[]
  }

  /** No connection is kept with no question under it. */
  predicate Tidy(t: Table)
  {
    forall ws :: ws in t ==> t[ws] != map[]
  }

  /** The table after `ask_human` registers a new future. */
  function Registered(t: Table, ws: string, rid: string): (r: Table)
    ensures Tidy(t) ==> Tidy(r)
    ensures ws in r && rid in r[ws] && r[ws][rid] == Pending
  {
    var e := Entries(t, ws)[rid := Pending];
    assert rid in e;
    t[ws := e]
  }

  /** The table after `ask_human`'s clean-up: the request id is gone, and so
      is its connection's entry if nothing else is left under it. */
  function Forgotten(t: Table, ws: string, rid: string): (r: Table)
    ensures Tidy(t) ==> Tidy(r)
    ensures ws in r ==> rid !in r[ws]
    ensures forall w :: w in r ==> w in t
  {
    if ws in t && rid in t[ws] then
      var rest := t[ws] - {rid};
      if rest == map[] then t - {ws} else t[ws := rest]
    else t
  }

  /** Registering a fresh request id and forgetting it again gives back the
      table as it was. */
  lemma RegisterForgetRestores(t: Table, ws: string, rid: string)
    requires Tidy(t) && rid !in Entries(t, ws)
    ensures Forgotten(Registered(t, ws, rid), ws, rid) == t
  {
    var r := Registered(t, ws, rid);
    assert r[ws] - {rid} == Entries(t, ws);
    if ws !in t {
      assert r - {ws} == t;
    } else {
      assert r[ws := Entries(t, ws)] == t;
    }
  }

  /** What a `user_response` frame finds under its request id. */
  datatype Resolution = Resolved | AlreadyDone | UnknownRequest

  /** What happens once `ask_human` has registered its question: sending it
      fails, the user answers, or the 300-second wait runs out. */
  datatype WaitOutcome = SendFailed(message: string) | Answered(answer: string) | TimedOut

  /** The tool's answer to the browser agent for each outcome. */
  function AskResult(outcome: WaitOutcome): string
  {
    match outcome
    case SendFailed(m) => "Error: Failed to get user input - " + m
    case Answered(a) => a
    case TimedOut => "Error: User did not respond in time."
  }

  class QuestionTable {
    var table: Table

    predicate Valid()
      reads this
    {
      Tidy(table)
    }

    constructor()
      ensures table == map[] && Valid()
    {
      table := map[];
    }

    /** `ask_human_via_websocket`: registers a future under the connection
        and request id, sends the question, waits, and in every case removes
        the request id again (and the connection's entry once empty). */
    method AskHuman(socket: Socket, ws: string, rid: string, question: string, outcome: WaitOutcome)
      returns (result: string)
      requires Valid()
      modifies this, socket
      ensures Valid()
      ensures result == AskResult(outcome)
      ensures socket.sent == old(socket.sent) + (if outcome.SendFailed? then [] else [AgentQuestionFrame(rid, question)])
      ensures socket.inbox == old(socket.inbox) && socket.closedWith == old(socket.closedWith)
      ensures table == Forgotten(Registered(old(table), ws, rid), ws, rid)
      ensures ws in table ==> rid !in table[ws]
    {
      var entries := if ws in table then table[ws] else map[];
      if ws !in table {
        table := table[ws := map[]];
      }
      table := table[ws := entries[rid := Pending]];
      assert table == Registered(old(table), ws, rid);
      if outcome.SendFailed? {
        result := "Error: Failed to get user input - " + outcome.message;
      } else {
        socket.Send(AgentQuestionFrame(rid, question));
        if outcome.Answered? {
          result := outcome.answer;
        } else {
          result := "Error: User did not respond in time.";
        }
      }
      Forget(ws, rid);
    }

    /** The `finally` clause of `ask_human`. */
    method Forget(ws: string, rid: string)
      requires Valid()
      modifies this
      ensures Valid() && table == Forgotten(old(table), ws, rid)
    {
      if ws in table && rid in table[ws] {
        table := table[ws := table[ws] - {rid}];
        if table[ws] == map[] {
          table := table - {ws};
        }
      }
    }

    /** A `user_response` for `rid` on connection `ws`: a pending future
        gets the answer; a done one and an unknown id are left alone. */
    method Resolve(ws: string, rid: string, answer: string) returns (r: Resolution)
      requires Valid()
      modifies this
      ensures Valid()
      ensures rid !in Entries(old(table), ws) <==> r == UnknownRequest
      ensures r == Resolved <==> rid in Entries(old(table), ws) && Entries(old(table), ws)[rid] == Pending
      ensures r == Resolved ==> table == old(table)[ws := old(table)[ws][rid := Done(answer)]]
      ensures r != Resolved ==> table == old(table)
    {
      var entries := if ws in table then table[ws] else map[];
      if rid in entries && entries[rid] == Pending {
        table := table[ws := entries[rid := Done(answer)]];
        r := Resolved;
      } else if rid in entries {
        r := AlreadyDone;
      } else {
        r := UnknownRequest;
      }
    }

    /** Clean-up when the browser tool ends or the connection closes: every
        future under `ws` that is not done is cancelled, and the entry is
        deleted. Returns the request ids cancelled. */
    method CancelAll(ws: string) returns (cancelled: set<string>)
      requires Valid()
      modifies this
      ensures Valid()
      ensures cancelled == set rid | rid in Entries(old(table), ws) && Entries(old(table), ws)[rid] == Pending
      ensures table == old(table) - {ws}
    {
      cancelled := {};
      if ws !in table {
        return;
      }
      var entries := table[ws];
      var todo := entries.Keys;
      while todo != {}
        invariant todo <= entries.Keys
        invariant cancelled == set rid | rid in entries && rid !in todo && entries[rid] == Pending
        decreases |todo|
      {
        var rid :| rid in todo;
        if entries[rid] == Pending {
          cancelled := cancelled + {rid};
        }
        todo := todo - {rid};
      }
      table := table - {ws};
    }
  }
}
