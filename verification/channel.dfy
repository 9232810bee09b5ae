/** A websocket as the backend sees it: the frames sent so far, the frames
    the client will still send, in order, and the close code once closed.
    An empty inbox stands for a disconnected client: receiving then raises. */
module Channel {
  import opened Common
  import opened Protocol

  class Socket {
    var sent: seq<OutFrame>
    var inbox: seq<Inbound>
    var closedWith: Option<int>

    constructor(inbox: seq<Inbound>)
      ensures sent == [] && this.inbox == inbox && closedWith == None
    {
      sent := [];
      this.inbox := inbox;
      closedWith := None;
    }

    /** `send_text(json.dumps(frame))` */
    method Send(f: OutFrame)
      modifies this
      ensures sent == old(sent) + [f] && inbox == old(inbox) && closedWith == old(closedWith)
    {
      sent := sent + [f];
    }

    /** `receive_text()` followed by `json.loads`: the next frame, or `None`
        when the client is gone. */
    method Receive() returns (r: Option<Inbound>)
      modifies this
      ensures old(inbox) == [] ==> r == None && inbox == []
      ensures old(inbox) != [] ==> r == Some(old(inbox)[0]) && inbox == old(inbox)[1..]
      ensures sent == old(sent) && closedWith == old(closedWith)
    {
      if inbox == [] {
        r := None;
      } else {
        r := Some(inbox[0]);
        inbox := inbox[1..];
      }
    }

    method Close(code: int)
      modifies this
      ensures closedWith == Some(code) && sent == old(sent) && inbox == old(inbox)
    {
      closedWith := Some(code);
    }
  }
}
