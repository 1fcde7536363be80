/**
  The connection lifecycle of a RobustWebSocket as a state machine over
  values: the controller's fields, the current transport instance's ready
  state and what it transmitted, the callbacks the event loop holds for the
  controller (reconnect timers and suspended `onopen` handlers), and two
  ledgers that record what happened to every payload given to `send`.

  `Step` says what one event does. The class in module RobustSocket is
  proved to perform exactly these steps; module Properties proves what
  the steps guarantee.
 */
module Lifecycle {
  import opened Wire
  import opened Config

  datatype Conn = Conn(
    socket: nat,              // id of the current transport instance (`this.ws`)
    readyState: ReadyState,   // its ready state
    log: seq<Payload>,        // what it transmitted so far
    isOpen: bool,
    closedManually: bool,
    pending: seq<Payload>,    // `pendingOnOpens`: every queued closure is a send
    reinited: set<nat>,       // instances whose `reinited` flag is set
    timers: seq<nat>,         // reconnect timers not yet fired, in firing order, tagged by instance
    suspended: seq<nat>,      // `onopen` handlers awaiting the hook's promise, tagged by instance
    delivered: seq<Payload>,  // what the consumer's `onmessage` callback received
    submitted: seq<Payload>,  // every payload given to `send`, in call order
    handedOff: seq<Payload>)  // every payload the controller passed to a transport's `send`

  datatype Event =
    | SocketOpened                          // the current instance fires `open`
    | HookSettled(index: nat, rejected: bool) // the hook promise of a suspended `onopen` settles
    | SocketClosed(source: nat)             // instance `source` fires `close` or `error`
    | TimerFired                            // the earliest pending reconnect timer fires
    | Message(data: Payload)                // an inbound message on any instance
    | Send(payload: Payload)                // the consumer calls `send`
    | Close(code: CloseCode, reason: seq<bv8>) // the consumer calls `close(code, reason)`

  /** Right after the constructor: instance 0 is connecting, nothing queued. */
  const Initial := Conn(0, Connecting, [], false, false, [], {}, [], [], [], [], [])

  /** `init()` run again: both flags reset, a new instance that is still
      connecting. The queue and the ledgers carry over. */
  function Reinit(s: Conn): (t: Conn)
    ensures t.socket == s.socket + 1 && t.readyState == Connecting && t.log == []
    ensures !t.isOpen && !t.closedManually
    ensures t.pending == s.pending && t.timers == s.timers && t.reinited == s.reinited
    ensures t.submitted == s.submitted && t.handedOff == s.handedOff
    ensures t.(socket := s.socket, readyState := s.readyState, log := s.log,
               isOpen := s.isOpen, closedManually := s.closedManually) == s
  {
    s.(socket := s.socket + 1, readyState := Connecting, log := [],
       isOpen := false, closedManually := false)
  }

  /** The end of the `onopen` handler: `isOpen` is set, every queued payload
      is passed to the current instance in order (it transmits them only if
      it is open; a throwing send is caught and the loop goes on), and the
      queue is emptied. */
  function Flush(s: Conn): (t: Conn)
    ensures t.isOpen && t.pending == [] && t.handedOff == s.handedOff + s.pending
    ensures s.readyState == Open ==> t.log == s.log + s.pending
    ensures s.readyState != Open ==> t.log == s.log
    ensures t.(isOpen := s.isOpen, log := s.log, handedOff := s.handedOff, pending := s.pending) == s
  {
    s.(isOpen := true,
       log := if s.readyState == Open then s.log + s.pending else s.log,
       handedOff := s.handedOff + s.pending,
       pending := [])
  }

  /** The `onopen` handler up to its first suspension point: the hook runs
      with the current instance and sends its own payloads; then the handler
      flushes at once, suspends on the promise, or stops because the hook
      threw (calling an `undefined` hook throws a TypeError). */
  function OpenHandler(o: Options, s: Conn): (t: Conn)
    requires s.readyState == Open
    ensures o.onOpen.Undefined? ==> t == s
    ensures o.onOpen.Defined? ==> s.log + o.onOpen.value.primes <= t.log
    ensures o.onOpen.Defined?
      ==> t.log == s.log + o.onOpen.value.primes
                   + (if o.onOpen.value.outcome.ReturnsNothing? then s.pending else [])
    ensures t.isOpen <==> s.isOpen || (o.onOpen.Defined? && o.onOpen.value.outcome.ReturnsNothing?)
    ensures t.pending == if o.onOpen.Defined? && o.onOpen.value.outcome.ReturnsNothing? then [] else s.pending
    ensures t.suspended
         == if o.onOpen.Defined? && o.onOpen.value.outcome.ReturnsPromise? then s.suspended + [s.socket]
            else s.suspended
  {
    match o.onOpen
    case Undefined => s
    case Defined(hook) =>
      var s1 := s.(log := s.log + hook.primes);
      match hook.outcome
      case ReturnsNothing => Flush(s1)
      case ReturnsPromise => s1.(suspended := s1.suspended + [s1.socket])
      case Throws => s1
  }

  /** True when the event makes a reconnect timer of instance `k` run `init()`. */
  predicate Reinits(s: Conn, e: Event, k: nat)
  {
    e.TimerFired? && s.timers != [] && s.timers[0] == k && k !in s.reinited
  }

  /** One event. An event that cannot occur in `s` (no such instance, no
      pending timer, ...) leaves `s` as it is. */
  function Step(o: Options, s: Conn, e: Event): (t: Conn)
    ensures s.submitted <= t.submitted && s.handedOff <= t.handedOff
    ensures s.reinited <= t.reinited
    ensures t.socket == s.socket
      || (e.TimerFired? && s.timers != [] && Reinits(s, e, s.timers[0]) && t.socket == s.socket + 1)
  {
    match e
    case SocketOpened =>
      if s.readyState == Connecting then OpenHandler(o, s.(readyState := Open)) else s
    case HookSettled(i, rejected) =>
      if i < |s.suspended| then
        var s1 := s.(suspended := s.suspended[..i] + s.suspended[i + 1..]);
        if rejected then s1 else Flush(s1)
      else s
    case SocketClosed(k) =>
      if k <= s.socket then
        var s1 := if k == s.socket then s.(readyState := Closed) else s;
        if s1.closedManually then s1 else s1.(timers := s1.timers + [k])
      else s
    case TimerFired =>
      if s.timers == [] then s
      else
        var k := s.timers[0];
        var s1 := s.(timers := s.timers[1..]);
        if k in s.reinited then s1 else Reinit(s1.(reinited := s1.reinited + {k}))
    case Message(m) =>
      s.(delivered := s.delivered + [m])
    case Send(p) =>
      var s1 := s.(submitted := s.submitted + [p]);
      if s.isOpen && s.readyState == Open then
        s1.(log := s1.log + [p], handedOff := s1.handedOff + [p])
      else
        s1.(pending := s1.pending + [p])
    case Close(code, reason) =>
      // the flag is set before the transport's `close`, which may throw
      s.(closedManually := true,
         readyState := if CloseArgsValid(code, reason) then AfterClose(s.readyState) else s.readyState)
  }

  /** A sequence of events, in order. */
  function Run(o: Options, s: Conn, evs: seq<Event>): Conn
    decreases |evs|
  {
    if evs == [] then s else Run(o, Step(o, s, evs[0]), evs[1..])
  }

  /** What holds in every reachable state: exactly the instances older than
      the current one have their `reinited` flag set, every pending callback
      belongs to an instance that exists, a handler suspended on the current
      instance means it has opened, and the queue neither loses nor
      duplicates a payload. */
  ghost predicate Inv(s: Conn)
  {
    (forall k: nat :: k in s.reinited <==> k < s.socket)
    && (forall j :: 0 <= j < |s.timers| ==> s.timers[j] <= s.socket)
    && (forall j :: 0 <= j < |s.suspended| ==> s.suspended[j] <= s.socket)
    && (s.readyState == Connecting ==> forall j :: 0 <= j < |s.suspended| ==> s.suspended[j] < s.socket)
    && multiset(s.handedOff) + multiset(s.pending) == multiset(s.submitted)
  }

  lemma InitialInv()
    ensures Inv(Initial)
  {
  }

  lemma StepPreservesInv(o: Options, s: Conn, e: Event)
    requires Inv(s)
    ensures Inv(Step(o, s, e))
  {
    match e
    case SocketOpened =>
      if s.readyState == Connecting { OpenHandlerPreservesInv(o, s.(readyState := Open)); }
    case HookSettled(i, rejected) =>
      if i < |s.suspended| { SettlePreservesInv(s, i, rejected); }
    case SocketClosed(k) =>
      if k <= s.socket { ClosedPreservesInv(s, k); }
    case TimerFired =>
      if s.timers != [] { TimerPreservesInv(s); }
    case Message(m) =>
    case Send(p) =>
      SendPreservesInv(s, p);
    case Close(_, _) =>
  }

  lemma OpenHandlerPreservesInv(o: Options, s: Conn)
    requires Inv(s) && s.readyState == Open
    ensures Inv(OpenHandler(o, s))
  {
    match o.onOpen
    case Undefined =>
    case Defined(hook) =>
      var s1 := s.(log := s.log + hook.primes);
      assert Inv(s1);
      match hook.outcome
      case ReturnsNothing => FlushPreservesInv(s1);
      case ReturnsPromise =>
        var t := s1.(suspended := s1.suspended + [s1.socket]);
        assert forall j :: 0 <= j < |t.suspended| ==> t.suspended[j] <= t.socket by {
          forall j | 0 <= j < |t.suspended| ensures t.suspended[j] <= t.socket {
            if j < |s1.suspended| { assert t.suspended[j] == s1.suspended[j]; }
          }
        }
      case Throws =>
  }

  lemma FlushPreservesInv(s: Conn)
    requires Inv(s)
    ensures Inv(Flush(s))
  {
    assert multiset(s.handedOff + s.pending) == multiset(s.handedOff) + multiset(s.pending);
  }

  lemma SettlePreservesInv(s: Conn, i: nat, rejected: bool)
    requires Inv(s) && i < |s.suspended|
    ensures forall o :: Inv(Step(o, s, HookSettled(i, rejected)))
  {
    var rest := s.suspended[..i] + s.suspended[i + 1..];
    var s1 := s.(suspended := rest);
    forall j | 0 <= j < |rest|
      ensures rest[j] <= s.socket && (s.readyState == Connecting ==> rest[j] < s.socket)
    {
      if j < i { assert rest[j] == s.suspended[j]; } else { assert rest[j] == s.suspended[j + 1]; }
    }
    assert Inv(s1);
    if !rejected { FlushPreservesInv(s1); }
  }

  lemma ClosedPreservesInv(s: Conn, k: nat)
    requires Inv(s) && k <= s.socket
    ensures forall o :: Inv(Step(o, s, SocketClosed(k)))
  {
    var s1 := if k == s.socket then s.(readyState := Closed) else s;
    assert Inv(s1);
    var t := s1.(timers := s1.timers + [k]);
    forall j | 0 <= j < |t.timers| ensures t.timers[j] <= t.socket {
      if j < |s1.timers| { assert t.timers[j] == s1.timers[j]; }
    }
  }

  lemma TimerPreservesInv(s: Conn)
    requires Inv(s) && s.timers != []
    ensures forall o :: Inv(Step(o, s, TimerFired))
  {
    var k := s.timers[0];
    var s1 := s.(timers := s.timers[1..]);
    forall j | 0 <= j < |s1.timers| ensures s1.timers[j] <= s.socket {
      assert s1.timers[j] == s.timers[j + 1];
    }
    assert Inv(s1);
    if k !in s.reinited {
      assert k == s.socket;
      var t := Reinit(s1.(reinited := s1.reinited + {k}));
      forall n: nat ensures n in t.reinited <==> n < t.socket {
      }
    }
  }

  lemma SendPreservesInv(s: Conn, p: Payload)
    requires Inv(s)
    ensures forall o :: Inv(Step(o, s, Send(p)))
  {
    var s1 := s.(submitted := s.submitted + [p]);
    assert multiset(s1.submitted) == multiset(s.submitted) + multiset([p]);
    if s.isOpen && s.readyState == Open {
      var t := s1.(log := s1.log + [p], handedOff := s1.handedOff + [p]);
      assert Inv(t) by {
        assert multiset(s.handedOff + [p]) == multiset(s.handedOff) + multiset([p]);
      }
      assert forall o :: Step(o, s, Send(p)) == t;
    } else {
      var t := s1.(pending := s1.pending + [p]);
      assert Inv(t) by {
        assert multiset(s.pending + [p]) == multiset(s.pending) + multiset([p]);
      }
      assert forall o :: Step(o, s, Send(p)) == t;
    }
  }
}
