/**
  The `RobustWebSocket` class: one live transport, a queue of sends that
  wait for the connection to be usable, the `onOpen` hook run on every open,
  and reconnection after an unexpected close or error.

  Each event the class reacts to is a method: `SocketOpened`, `HookSettled`,
  `SocketClosed`, `TimerFired` and `Deliver` are the callbacks the transport
  and the event loop invoke; `Send` and `Close` are the public operations.
  Every one of them is proved to change the state exactly as
  `Lifecycle.Step` says, and to keep `Lifecycle.Inv`.
 */
module RobustSocket {
  import opened Wire
  import opened Config
  import Lifecycle

  class RobustWebSocket {
    const url: string
    const options: Options
    var ws: Transport
    var isOpen: bool
    var closedManually: bool
    var pendingOnOpens: seq<Payload>
    /** The `reinited` flag each `init()` call creates for its handlers,
        kept by the id of the instance those handlers belong to. */
    var reinited: set<nat>
    /** The reconnect timers the handlers scheduled and that have not fired
        yet, each tagged with the instance whose handler scheduled it. */
    var timers: seq<nat>
    /** `onopen` handlers waiting for the hook's promise, by instance. */
    ghost var suspended: seq<nat>
    /** What the consumer's `onmessage` callback received. */
    ghost var delivered: seq<Payload>
    /** Every instance this object created, oldest first. */
    ghost var sockets: seq<Transport>
    ghost var submitted: seq<Payload>
    ghost var handedOff: seq<Payload>

    /** The abstract state this object is in. */
    ghost function Model(): Lifecycle.Conn
      reads this, ws
    {
      Lifecycle.Conn(ws.id, ws.readyState, ws.log, isOpen, closedManually, pendingOnOpens,
                     reinited, timers, suspended, delivered, submitted, handedOff)
    }

    /** `ws` is the newest instance, instances are numbered in creation
        order (so none is ever reused), and the lifecycle invariant holds. */
    ghost predicate Valid()
      reads this, ws
    {
      |sockets| > 0 && ws == sockets[|sockets| - 1]
      && (forall i :: 0 <= i < |sockets| ==> sockets[i].id == i)
      && Lifecycle.Inv(Model())
    }

    /** The constructor merges the options and runs `init()` once. */
    constructor (url: string, options: Optional<WebSocketOptions>)
      ensures Valid() && fresh(ws) && ws.url == url
      ensures this.url == url && this.options == Merge(options)
      ensures Model() == Lifecycle.Initial
    {
      this.url := url;
      this.options := Merge(options);
      closedManually := false;
      isOpen := false;
      ws := new Transport(url, 0);
      sockets := [ws];
      pendingOnOpens := [];
      reinited := {};
      timers := [];
      suspended := [];
      delivered := [];
      submitted := [];
      handedOff := [];
      new;
      Lifecycle.InitialInv();
    }

    /** `init()` after the first: resets both flags and replaces the
        transport by a new instance. Its handlers start with their own
        `reinited` flag clear: the new id is not in `reinited`. */
    method Init()
      requires |sockets| > 0 && ws == sockets[|sockets| - 1]
      requires forall i :: 0 <= i < |sockets| ==> sockets[i].id == i
      modifies this
      ensures fresh(ws) && ws.url == url && sockets == old(sockets) + [ws]
      ensures forall i :: 0 <= i < |sockets| ==> sockets[i].id == i
      ensures Model() == Lifecycle.Reinit(old(Model()))
    {
      closedManually := false;
      isOpen := false;
      ws := new Transport(url, ws.id + 1);
      sockets := sockets + [ws];
    }

    /** The current instance opens and fires `open`: the hook runs with it,
        then the handler flushes, suspends on the hook's promise, or stops
        because the hook threw. */
    method SocketOpened()
      requires Valid() && ws.readyState == Connecting
      modifies this, ws
      ensures Valid() && ws == old(ws) && sockets == old(sockets)
      ensures Model() == Lifecycle.Step(options, old(Model()), Lifecycle.SocketOpened)
    {
      ghost var before := Model();
      ws.Accept();
      match options.onOpen {
        case Undefined =>
          // calling the hook throws a TypeError before `isOpen` is set
        case Defined(hook) =>
          RunHook(hook);
          match hook.outcome {
            case ReturnsNothing => FlushPending();
            case ReturnsPromise => suspended := suspended + [ws.id];
            case Throws =>
          }
      }
      Lifecycle.StepPreservesInv(options, before, Lifecycle.SocketOpened);
    }

    /** The user's hook, given the open instance, sends its own payloads on it. */
    method RunHook(hook: OpenHook)
      requires ws.readyState == Open
      modifies ws
      ensures ws.readyState == Open && ws.log == old(ws.log) + hook.primes
    {
      for i := 0 to |hook.primes|
        invariant ws.readyState == Open
        invariant ws.log == old(ws.log) + hook.primes[..i]
      {
        var _ := ws.Send(hook.primes[i]);
      }
    }

    /** The rest of the `onopen` handler: set `isOpen`, run every queued
        send in order, catching a send that throws, then empty the queue. */
    method FlushPending()
      modifies this, ws
      ensures ws == old(ws) && sockets == old(sockets)
      ensures Model() == Lifecycle.Flush(old(Model()))
    {
      ghost var before := Model();
      isOpen := true;
      var i := 0;
      while i < |pendingOnOpens|
        invariant 0 <= i <= |pendingOnOpens| && pendingOnOpens == before.pending
        invariant ws == old(ws) && sockets == old(sockets) && ws.readyState == before.readyState
        invariant Model() == before.(
          isOpen := true,
          log := if before.readyState == Open then before.log + pendingOnOpens[..i] else before.log,
          handedOff := before.handedOff + pendingOnOpens[..i])
      {
        var threw := ws.Send(pendingOnOpens[i]);
        // a throwing send is caught (and logged); the loop goes on
        handedOff := handedOff + [pendingOnOpens[i]];
        i := i + 1;
      }
      assert pendingOnOpens[..i] == before.pending;
      pendingOnOpens := [];
    }

    /** The promise returned by the hook of suspended handler `i` settles:
        when it resolves the handler runs to its end, when it rejects the
        handler stops there. */
    method HookSettled(i: nat, rejected: bool)
      requires Valid() && i < |suspended|
      modifies this, ws
      ensures Valid() && ws == old(ws) && sockets == old(sockets)
      ensures Model() == Lifecycle.Step(options, old(Model()), Lifecycle.HookSettled(i, rejected))
    {
      ghost var before := Model();
      suspended := suspended[..i] + suspended[i + 1..];
      if !rejected {
        FlushPending();
      }
      Lifecycle.StepPreservesInv(options, before, Lifecycle.HookSettled(i, rejected));
    }

    /** Instance `s` (the current one or an older one) fires `close` or
        `error`. Unless the connection was closed manually, the handler
        schedules a timer that will re-run `init()` if this instance's
        `reinited` flag is still clear. */
    method SocketClosed(s: Transport)
      requires Valid() && s in sockets
      modifies this, s
      ensures Valid() && ws == old(ws) && sockets == old(sockets)
      ensures Model() == Lifecycle.Step(options, old(Model()), Lifecycle.SocketClosed(s.id))
    {
      ghost var before := Model();
      ghost var j :| 0 <= j < |sockets| && sockets[j] == s;
      assert s.id == ws.id ==> s == ws;
      s.Fail();
      if !closedManually {
        timers := timers + [s.id];
      }
      Lifecycle.StepPreservesInv(options, before, Lifecycle.SocketClosed(s.id));
    }

    /** The earliest pending reconnect timer fires. */
    method TimerFired()
      requires Valid() && timers != []
      modifies this
      ensures Valid()
      ensures Model() == Lifecycle.Step(options, old(Model()), Lifecycle.TimerFired)
      ensures ws == old(ws) || (fresh(ws) && sockets == old(sockets) + [ws])
    {
      ghost var before := Model();
      var k := timers[0];
      timers := timers[1..];
      if k !in reinited {
        // set the flag first, in case both `error` and `close` fired for this instance
        reinited := reinited + {k};
        Init();
      }
      Lifecycle.StepPreservesInv(options, before, Lifecycle.TimerFired);
    }

    /** An inbound message, on any instance, goes straight to the consumer. */
    method Deliver(m: Payload)
      requires Valid()
      modifies this
      ensures Valid() && ws == old(ws) && sockets == old(sockets)
      ensures Model() == Lifecycle.Step(options, old(Model()), Lifecycle.Message(m))
    {
      delivered := delivered + [m];
    }

    /** `send`: through `_doWhenOpen`, the payload goes to the current
        instance at once when `isOpen` is set and the instance is OPEN, and
        is queued otherwise. */
    method Send(p: Payload)
      requires Valid()
      modifies this, ws
      ensures Valid() && ws == old(ws) && sockets == old(sockets)
      ensures Model() == Lifecycle.Step(options, old(Model()), Lifecycle.Send(p))
    {
      ghost var before := Model();
      submitted := submitted + [p];
      if !isOpen || ws.readyState != Open {
        pendingOnOpens := pendingOnOpens + [p];
        assert Model() == before.(submitted := before.submitted + [p], pending := before.pending + [p]);
      } else {
        var _ := ws.Send(p);
        handedOff := handedOff + [p];
        assert Model() == before.(submitted := before.submitted + [p], log := before.log + [p],
                                  handedOff := before.handedOff + [p]);
      }
      Lifecycle.StepPreservesInv(options, before, Lifecycle.Send(p));
    }

    /** `close(code, reason)`: from now on `close` and `error` events
        schedule nothing. The flag is set first, so it stays set when the
        transport rejects the arguments and the exception (`threw`)
        propagates to the caller. */
    method Close(code: CloseCode, reason: seq<bv8>) returns (threw: bool)
      requires Valid()
      modifies this, ws
      ensures Valid() && ws == old(ws) && sockets == old(sockets)
      ensures threw <==> !CloseArgsValid(code, reason)
      ensures Model() == Lifecycle.Step(options, old(Model()), Lifecycle.Close(code, reason))
    {
      ghost var before := Model();
      closedManually := true;
      threw := ws.Close(code, reason);
      Lifecycle.StepPreservesInv(options, before, Lifecycle.Close(code, reason));
    }
  }
}
