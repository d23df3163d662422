/** The two ends of the client-server WebSocket, reduced to what the protocol
    code observes of them: the numeric `readyState` and the messages sent. On
    the server's end that is every message handed to `send`; on the browser's
    end, only the messages the socket transmitted. */
module Transport {
  import opened Protocol

  /** WebSocket ready-state codes. */
  const CONNECTING: int := 0
  const OPEN: int := 1
  const CLOSING: int := 2
  const CLOSED: int := 3

  /** The server's end of one connection (a `ws` library socket). Every
      `send` the relay makes is recorded; the transport itself (and its own
      ready-state changes) belongs to the environment. */
  class ServerSocket {
    var readyState: int
    var sent: seq<ServerMsg>

    constructor (readyState: int)
      ensures this.readyState == readyState && sent == []
    {
      this.readyState := readyState;
      sent := [];
    }

    method Send(m: ServerMsg)
      modifies this
      ensures sent == old(sent) + [m]
      ensures readyState == old(readyState)
    {
      sent := sent + [m];
    }
  }

  /** What a browser `WebSocket.send` does in each ready state. */
  datatype SendResult = Threw | Transmitted | Discarded

  function SendResultIn(readyState: int): (r: SendResult)
    ensures r == Threw <==> readyState == CONNECTING
    ensures r == Transmitted <==> readyState == OPEN
  {
    if readyState == CONNECTING then Threw
    else if readyState == OPEN then Transmitted
    else Discarded
  }

  /** The browser's end: `send` throws an InvalidStateError while the socket
      is still connecting, transmits while it is open and silently discards
      the data once it is closing or closed. */
  class BrowserSocket {
    var readyState: int
    var sent: seq<ClientMsg>

    constructor ()
      ensures readyState == CONNECTING && sent == []
    {
      readyState := CONNECTING;
      sent := [];
    }

    method Send(m: ClientMsg) returns (r: SendResult)
      modifies this
      ensures r == SendResultIn(old(readyState))
      ensures sent == if r == Transmitted then old(sent) + [m] else old(sent)
      ensures readyState == old(readyState)
    {
      r := SendResultIn(readyState);
      if r == Transmitted {
        sent := sent + [m];
      }
    }

    /** `close()` starts the closing handshake; the `close` event comes later. */
    method Close()
      modifies this
      ensures readyState == if old(readyState) == CONNECTING || old(readyState) == OPEN then CLOSING else old(readyState)
      ensures sent == old(sent)
    {
      if readyState == CONNECTING || readyState == OPEN {
        readyState := CLOSING;
      }
    }
  }
}
