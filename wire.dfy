/**
  The transport the controller wraps: one WebSocket instance, seen only
  through its ready state, its `send` and `close` operations, and the events
  it fires. Only what the controller relies on is modelled.
 */
module Wire {

  /** What `send` accepts: text or binary data. */
  datatype Payload = Text(text: string) | Binary(bytes: seq<bv8>)

  /** `WebSocket.readyState`: CONNECTING (0), OPEN (1), CLOSING (2), CLOSED (3). */
  datatype ReadyState = Connecting | Open | Closing | Closed

  /** The ready state `close()` leaves behind: a connecting or open socket
      starts closing, a closing or closed one is left alone. */
  function AfterClose(r: ReadyState): ReadyState
  {
    if r == Connecting || r == Open then Closing else r
  }

  /** The `code` argument of `close`: left out, or a number. */
  datatype CloseCode = NoCode | Code(value: int)

  /** Whether `close(code, reason)` accepts its arguments: a code, when
      given, is 1000 or in 3000..4999 (otherwise it throws
      InvalidAccessError), and the reason, UTF-8 encoded (empty when left
      out), is at most 123 bytes long (otherwise it throws SyntaxError). */
  predicate CloseArgsValid(code: CloseCode, reason: seq<bv8>)
  {
    (code.NoCode? || code.value == 1000 || 3000 <= code.value <= 4999) && |reason| <= 123
  }

  /** One transport instance. `id` is the number the controller gives each
      instance it creates; `log` is what this instance put on the wire. */
  class Transport {
    const id: nat
    const url: string
    var readyState: ReadyState
    ghost var log: seq<Payload>

    constructor (url: string, id: nat)
      ensures this.url == url && this.id == id
      ensures readyState == Connecting && log == []
    {
      this.url := url;
      this.id := id;
      readyState := Connecting;
      log := [];
    }

    /** The handshake completed: the instance is about to fire `open`. */
    method Accept()
      requires readyState == Connecting
      modifies this
      ensures readyState == Open && log == old(log)
    {
      readyState := Open;
    }

    /** The connection was lost or failed: the instance is about to fire
        `error` and/or `close`. */
    method Fail()
      modifies this
      ensures readyState == Closed && log == old(log)
    {
      readyState := Closed;
    }

    /** `send`: transmits only when OPEN; throws (InvalidStateError) while
        CONNECTING; silently discards once CLOSING or CLOSED. */
    method Send(p: Payload) returns (threw: bool)
      modifies this
      ensures readyState == old(readyState)
      ensures threw <==> readyState == Connecting
      ensures log == if readyState == Open then old(log) + [p] else old(log)
    {
      threw := readyState == Connecting;
      if readyState == Open {
        log := log + [p];
      }
    }

    /** `close(code, reason)`: throws, changing nothing, when the arguments
        are invalid; otherwise starts the closing handshake. */
    method Close(code: CloseCode, reason: seq<bv8>) returns (threw: bool)
      modifies this
      ensures threw <==> !CloseArgsValid(code, reason)
      ensures readyState == (if threw then old(readyState) else AfterClose(old(readyState)))
      ensures log == old(log)
    {
      threw := !CloseArgsValid(code, reason);
      if !threw {
        readyState := AfterClose(readyState);
      }
    }
  }
}
