/**
  What the lifecycle guarantees, and where it does not: the send queue,
  the open hook, the one re-initialisation per transport instance, and the
  effect of a manual close.
 */
module Properties {
  import opened Wire
  import opened Config
  import opened Lifecycle

  /** The events of calling `send` once per payload, in order. */
  function Sends(ps: seq<Payload>): (evs: seq<Event>)
    ensures |evs| == |ps| && forall i :: 0 <= i < |ps| ==> evs[i] == Send(ps[i])
  {
    if ps == [] then [] else [Send(ps[0])] + Sends(ps[1..])
  }

  /** The events of receiving one inbound message per payload, in order. */
  function Messages(ms: seq<Payload>): (evs: seq<Event>)
    ensures |evs| == |ms| && forall i :: 0 <= i < |ms| ==> evs[i] == Message(ms[i])
  {
    if ms == [] then [] else [Message(ms[0])] + Messages(ms[1..])
  }

  lemma {:induction false} RunAppend(o: Options, s: Conn, a: seq<Event>, b: seq<Event>)
    ensures Run(o, s, a + b) == Run(o, Run(o, s, a), b)
    decreases |a|
  {
    if a == [] {
      assert a + b == b;
    } else {
      assert (a + b)[0] == a[0];
      assert (a + b)[1..] == a[1..] + b;
      RunAppend(o, Step(o, s, a[0]), a[1..], b);
    }
  }

  lemma RunCons(o: Options, s: Conn, e: Event, rest: seq<Event>)
    ensures Run(o, s, [e] + rest) == Run(o, Step(o, s, e), rest)
  {
    assert ([e] + rest)[0] == e && ([e] + rest)[1..] == rest;
  }

  // ---------------------------------------------------------------------
  // `send` and `_doWhenOpen`

  /** A payload goes to the transport at once exactly when `isOpen` is set
      and the current instance is OPEN; otherwise it is queued and nothing
      is transmitted. Either way it joins the record of calls. */
  lemma SendDispatchesOnlyWhenOpen(o: Options, s: Conn, p: Payload)
    ensures var t := Step(o, s, Send(p));
      t.submitted == s.submitted + [p]
      && (s.isOpen && s.readyState == Open ==>
            t.log == s.log + [p] && t.handedOff == s.handedOff + [p] && t.pending == s.pending)
      && (!(s.isOpen && s.readyState == Open) ==>
            t.log == s.log && t.handedOff == s.handedOff && t.pending == s.pending + [p])
  {
  }

  /** Any number of sends while the connection is not usable only extend
      the queue, in call order. */
  lemma {:induction false} SendsQueueWhileNotOpen(o: Options, s: Conn, ps: seq<Payload>)
    requires !(s.isOpen && s.readyState == Open)
    ensures Run(o, s, Sends(ps)) == s.(pending := s.pending + ps, submitted := s.submitted + ps)
    decreases |ps|
  {
    if ps == [] {
      assert s.pending + ps == s.pending && s.submitted + ps == s.submitted;
    } else {
      var s1 := s.(pending := s.pending + [ps[0]], submitted := s.submitted + [ps[0]]);
      assert Run(o, s, Sends(ps)) == Run(o, s1, Sends(ps[1..])) by {
        SendQueues(o, s, ps[0]);
        assert Sends(ps)[0] == Send(ps[0]) && Sends(ps)[1..] == Sends(ps[1..]);
      }
      SendsQueueWhileNotOpen(o, s1, ps[1..]);
      assert s.pending + [ps[0]] + ps[1..] == s.pending + ps by { SeqCons(s.pending, ps); }
      assert s.submitted + [ps[0]] + ps[1..] == s.submitted + ps by { SeqCons(s.submitted, ps); }
    }
  }

  lemma SeqCons<T>(a: seq<T>, b: seq<T>)
    requires b != []
    ensures a + [b[0]] + b[1..] == a + b
  {
    assert [b[0]] + b[1..] == b;
  }

  lemma SendQueues(o: Options, s: Conn, p: Payload)
    requires !(s.isOpen && s.readyState == Open)
    ensures Step(o, s, Send(p)) == s.(pending := s.pending + [p], submitted := s.submitted + [p])
  {
  }

  /** The consumer's callback sees inbound messages in arrival order, none
      dropped or repeated, whatever the state of the connection. */
  lemma {:induction false} MessagesDeliveredInOrder(o: Options, s: Conn, ms: seq<Payload>)
    ensures Run(o, s, Messages(ms)) == s.(delivered := s.delivered + ms)
    decreases |ms|
  {
    if ms == [] {
      assert s.delivered + ms == s.delivered;
    } else {
      var s1 := s.(delivered := s.delivered + [ms[0]]);
      assert Run(o, s, Messages(ms)) == Run(o, s1, Messages(ms[1..])) by {
        assert Step(o, s, Message(ms[0])) == s1;
        assert Messages(ms)[0] == Message(ms[0]) && Messages(ms)[1..] == Messages(ms[1..]);
      }
      MessagesDeliveredInOrder(o, s1, ms[1..]);
      assert s.delivered + [ms[0]] + ms[1..] == s.delivered + ms by { SeqCons(s.delivered, ms); }
    }
  }

  /** `isOpen` is not cleared when the transport closes: only the next
      `init()` clears it. A send in between is still queued, because
      `_doWhenOpen` checks the ready state too. */
  lemma IsOpenOutlivesTransport(o: Options, s: Conn, p: Payload)
    requires s.isOpen && s.readyState == Open
    ensures var t := Run(o, s, [SocketClosed(s.socket), Send(p)]);
      t.isOpen && t.readyState == Closed && t.log == s.log && t.pending == s.pending + [p]
  {
    var s1 := Step(o, s, SocketClosed(s.socket));
    assert s1.isOpen && s1.readyState == Closed && s1.log == s.log && s1.pending == s.pending;
    assert Run(o, s1, [Send(p)]) == Step(o, s1, Send(p));
  }

  // ---------------------------------------------------------------------
  // The `onopen` handler: hook first, then `isOpen`, then the flush

  /** When the hook's promise resolves the handler ends: `isOpen` is set,
      the whole queue has been passed to the current instance in order (and
      transmitted if it is open) and the queue is empty. */
  lemma SettledHookFlushesQueue(o: Options, s: Conn, i: nat)
    requires i < |s.suspended|
    ensures var t := Step(o, s, HookSettled(i, false));
      t.isOpen && t.pending == [] && t.handedOff == s.handedOff + s.pending
      && t.log == (if s.readyState == Open then s.log + s.pending else s.log)
  {
  }

  /** When the hook's promise rejects, the handler stops at its `await`:
      `isOpen` is not set and the queue stays as it is. */
  lemma RejectedHookLeavesQueue(o: Options, s: Conn, i: nat)
    requires i < |s.suspended|
    ensures var t := Step(o, s, HookSettled(i, true));
      t.isOpen == s.isOpen && t.pending == s.pending && t.log == s.log
      && |t.suspended| == |s.suspended| - 1
  {
  }

  /** A hook that returns nothing: the instance transmits the hook's own
      payloads, then the whole queue, in one go. */
  lemma SyncHookOpensAndFlushes(o: Options, s: Conn, primes: seq<Payload>)
    requires o.onOpen == Defined(OpenHook(primes, ReturnsNothing))
    requires s.readyState == Connecting
    ensures var t := Step(o, s, SocketOpened);
      t.readyState == Open && t.isOpen && t.pending == []
      && t.log == s.log + primes + s.pending && t.handedOff == s.handedOff + s.pending
  {
  }

  /** A hook that returns a promise: while it is pending nothing queued
      reaches the transport and every further send is queued; when it
      resolves, the transport has received the hook's payloads first, then
      the payloads queued before the open, then those sent meanwhile. */
  lemma {:induction false} HookSendsPrecedeQueued(o: Options, s: Conn, primes: seq<Payload>, ps: seq<Payload>)
    requires o.onOpen == Defined(OpenHook(primes, ReturnsPromise))
    requires s.readyState == Connecting && !s.isOpen
    ensures var during := Run(o, s, [SocketOpened] + Sends(ps));
      !during.isOpen && during.log == s.log + primes && during.pending == s.pending + ps
    ensures var t := Run(o, s, [SocketOpened] + Sends(ps) + [HookSettled(|s.suspended|, false)]);
      t.isOpen && t.pending == [] && t.log == s.log + primes + s.pending + ps
      && t.handedOff == s.handedOff + s.pending + ps
  {
    var settle := HookSettled(|s.suspended|, false);
    var s1 := s.(readyState := Open, log := s.log + primes, suspended := s.suspended + [s.socket]);
    var during := s1.(pending := s.pending + ps, submitted := s.submitted + ps);
    assert Run(o, s, [SocketOpened] + Sends(ps)) == during by {
      assert Step(o, s, SocketOpened) == s1;
      RunCons(o, s, SocketOpened, Sends(ps));
      SendsQueueWhileNotOpen(o, s1, ps);
    }
    var t := during.(isOpen := true, log := s.log + primes + s.pending + ps,
                     handedOff := s.handedOff + s.pending + ps, pending := [],
                     suspended := s.suspended);
    assert Step(o, during, settle) == t by {
      assert during.suspended[..|s.suspended|] + during.suspended[|s.suspended| + 1..] == s.suspended;
      assert s.log + primes + (s.pending + ps) == s.log + primes + s.pending + ps;
      assert s.handedOff + (s.pending + ps) == s.handedOff + s.pending + ps;
    }
    assert Run(o, s, [SocketOpened] + Sends(ps) + [settle]) == t by {
      RunAppend(o, s, [SocketOpened] + Sends(ps), [settle]);
      RunCons(o, during, settle, []);
      assert [settle] + [] == [settle];
    }
  }

  // ---------------------------------------------------------------------
  // FIFO order of sends across reconnects

  /** The queue discipline: the payloads handed to transports, followed by
      those still queued, are exactly the payloads given to `send`, in call
      order; a handler never sets `isOpen` on a connecting instance; and
      while the connection is usable nothing waits in the queue. */
  ghost predicate Fifo(s: Conn)
  {
    s.handedOff + s.pending == s.submitted
    && (s.isOpen ==> s.readyState != Connecting)
    && (s.isOpen && s.readyState == Open ==> s.pending == [])
  }

  /** A suspended `onopen` handler resumes while the current instance is
      still connecting. */
  predicate StaleResume(s: Conn, e: Event)
  {
    e.HookSettled? && !e.rejected && e.index < |s.suspended| && s.readyState == Connecting
  }

  /** Such a resume always belongs to an earlier instance: its hook
      outlived the instance it was run for. */
  lemma StaleResumeIsFromEarlierSocket(s: Conn, e: Event)
    requires Inv(s) && StaleResume(s, e)
    ensures s.suspended[e.index] < s.socket
  {
  }

  lemma FifoInitial()
    ensures Fifo(Initial)
  {
  }

  /** Every event but a stale resume keeps the queue discipline. */
  lemma FifoStep(o: Options, s: Conn, e: Event)
    requires Fifo(s) && !StaleResume(s, e)
    ensures Fifo(Step(o, s, e))
  {
    match e
    case SocketOpened =>
      if s.readyState == Connecting {
        var s1 := s.(readyState := Open);
        match o.onOpen
        case Undefined =>
        case Defined(hook) =>
          var s2 := s1.(log := s1.log + hook.primes);
          assert s2.handedOff + s2.pending + [] == s.submitted;
      }
    case HookSettled(i, rejected) =>
      if i < |s.suspended| && !rejected {
        assert s.handedOff + s.pending + [] == s.submitted;
      }
    case Send(p) =>
      if s.isOpen && s.readyState == Open {
        assert s.handedOff + [p] + [] == s.submitted + [p];
      } else {
        assert s.handedOff + (s.pending + [p]) == s.submitted + [p];
      }
    case _ =>
  }

  /** Events whose every step is free of stale resumes. */
  ghost predicate NoStaleResume(o: Options, s: Conn, evs: seq<Event>)
    decreases |evs|
  {
    evs == [] || (!StaleResume(s, evs[0]) && NoStaleResume(o, Step(o, s, evs[0]), evs[1..]))
  }

  /** FIFO across reconnects: along any run without a stale resume, the
      payloads handed to transports are a prefix of the `send` calls, the
      queue holds the rest in call order, and what was handed off before
      the run stays a prefix of what is handed off after it. */
  lemma {:induction false} FifoAcrossReconnects(o: Options, s: Conn, evs: seq<Event>)
    requires Fifo(s) && NoStaleResume(o, s, evs)
    ensures var t := Run(o, s, evs);
      Fifo(t) && s.submitted <= t.submitted && s.handedOff <= t.handedOff
    decreases |evs|
  {
    if evs != [] {
      var s1 := Step(o, s, evs[0]);
      FifoStep(o, s, evs[0]);
      FifoAcrossReconnects(o, s1, evs[1..]);
      var t := Run(o, s1, evs[1..]);
      assert s.submitted <= s1.submitted <= t.submitted;
      assert s.handedOff <= s1.handedOff <= t.handedOff;
    }
  }

  /** From construction on: every payload given to `send` is either
      handed to a transport or still queued, in call order, as long as no
      hook outlives its instance and resumes while the next one connects. */
  lemma SendOrderFromConstruction(o: Options, evs: seq<Event>)
    requires NoStaleResume(o, Initial, evs)
    ensures var t := Run(o, Initial, evs); t.handedOff + t.pending == t.submitted
  {
    FifoInitial();
    FifoAcrossReconnects(o, Initial, evs);
  }

  /** A stale resume does reorder: the hook of instance 0 outlives it and
      resumes while instance 1 connects; it sets `isOpen`, so once instance
      1 opens (its own hook still pending) a later send overtakes a queued
      one, and the queued one follows when that hook resolves. */
  lemma StaleResumeReorders(a: Payload, b: Payload)
    requires a != b
    ensures
      var o := Options(Defined(DefaultReconnectTimeoutMillis), Defined(OpenHook([], ReturnsPromise)));
      var t := Run(o, Initial, [SocketOpened, SocketClosed(0), TimerFired, HookSettled(0, false),
                                Send(a), SocketOpened, Send(b), HookSettled(0, false)]);
      t.socket == 1 && t.submitted == [a, b] && t.log == [b, a] && t.handedOff == [b, a]
  {
    var o := Options(Defined(DefaultReconnectTimeoutMillis), Defined(OpenHook([], ReturnsPromise)));
    var first := [SocketOpened, SocketClosed(0), TimerFired, HookSettled(0, false)];
    var second := [Send(a), SocketOpened, Send(b), HookSettled(0, false)];
    assert Run(o, Initial, first + second)
        == Conn(1, Open, [b, a], true, false, [], {0}, [], [], [], [a, b], [b, a]) by {
      StaleResumeBeforeSends();
      StaleResumeSends(a, b);
      RunAppend(o, Initial, first, second);
    }
    assert first + second == [SocketOpened, SocketClosed(0), TimerFired, HookSettled(0, false),
                              Send(a), SocketOpened, Send(b), HookSettled(0, false)];
  }

  /** The first half: instance 0 opens and suspends on its hook, drops,
      is replaced by instance 1, and then its hook resolves: `isOpen` is
      set while instance 1 is still connecting. */
  lemma StaleResumeBeforeSends()
    ensures Run(Options(Defined(DefaultReconnectTimeoutMillis), Defined(OpenHook([], ReturnsPromise))), Initial,
                [SocketOpened, SocketClosed(0), TimerFired, HookSettled(0, false)])
         == Conn(1, Connecting, [], true, false, [], {0}, [], [], [], [], [])
  {
    var o := Options(Defined(DefaultReconnectTimeoutMillis), Defined(OpenHook([], ReturnsPromise)));
    var s1 := Initial.(readyState := Open, suspended := [0]);
    var s2 := s1.(readyState := Closed, timers := [0]);
    var s3 := s2.(socket := 1, readyState := Connecting, reinited := {0}, timers := []);
    var s4 := s3.(isOpen := true, suspended := []);
    RunThrough4(o, Initial, s1, s2, s3, s4, [SocketOpened, SocketClosed(0), TimerFired, HookSettled(0, false)]);
  }

  /** The second half: `a` is queued (instance 1 is connecting), instance 1
      opens and suspends on its own hook, `b` goes straight out because
      `isOpen` is set, and `a` follows only when that hook resolves. */
  lemma StaleResumeSends(a: Payload, b: Payload)
    ensures Run(Options(Defined(DefaultReconnectTimeoutMillis), Defined(OpenHook([], ReturnsPromise))),
                Conn(1, Connecting, [], true, false, [], {0}, [], [], [], [], []),
                [Send(a), SocketOpened, Send(b), HookSettled(0, false)])
         == Conn(1, Open, [b, a], true, false, [], {0}, [], [], [], [a, b], [b, a])
  {
    var o := Options(Defined(DefaultReconnectTimeoutMillis), Defined(OpenHook([], ReturnsPromise)));
    var s4 := Conn(1, Connecting, [], true, false, [], {0}, [], [], [], [], []);
    var s5 := s4.(submitted := [a], pending := [a]);
    var s6 := s5.(readyState := Open, suspended := [1]);
    var s7 := s6.(log := [b], submitted := [a, b], handedOff := [b]);
    var s8 := s7.(log := [b, a], handedOff := [b, a], pending := [], suspended := []);
    RunThrough4(o, s4, s5, s6, s7, s8, [Send(a), SocketOpened, Send(b), HookSettled(0, false)]);
  }

  /** A run through a recorded trace of states, each the step of the one
      before, ends in the trace's last state. */
  lemma {:induction false} RunTrace(o: Options, states: seq<Conn>, evs: seq<Event>)
    requires |states| == |evs| + 1
    requires forall i :: 0 <= i < |evs| ==> states[i + 1] == Step(o, states[i], evs[i])
    ensures Run(o, states[0], evs) == states[|evs|]
    decreases |evs|
  {
    if evs != [] {
      RunTrace(o, states[1..], evs[1..]);
    }
  }

  /** The same, for a trace of four events spelled out state by state. */
  lemma RunThrough4(o: Options, s0: Conn, s1: Conn, s2: Conn, s3: Conn, s4: Conn, evs: seq<Event>)
    requires |evs| == 4
    requires s1 == Step(o, s0, evs[0]) && s2 == Step(o, s1, evs[1])
    requires s3 == Step(o, s2, evs[2]) && s4 == Step(o, s3, evs[3])
    ensures Run(o, s0, evs) == s4
  {
    var states := [s0, s1, s2, s3, s4];
    forall i | 0 <= i < |evs| ensures states[i + 1] == Step(o, states[i], evs[i]) {
      if i == 0 {} else if i == 1 {} else if i == 2 {} else {}
    }
    RunTrace(o, states, evs);
  }

  /** The same trace, when none of its four steps is a stale resume. */
  lemma NoStaleThrough4(o: Options, s0: Conn, s1: Conn, s2: Conn, s3: Conn, s4: Conn, evs: seq<Event>)
    requires |evs| == 4
    requires s1 == Step(o, s0, evs[0]) && s2 == Step(o, s1, evs[1])
    requires s3 == Step(o, s2, evs[2]) && s4 == Step(o, s3, evs[3])
    requires !StaleResume(s0, evs[0]) && !StaleResume(s1, evs[1])
    requires !StaleResume(s2, evs[2]) && !StaleResume(s3, evs[3])
    ensures NoStaleResume(o, s0, evs)
  {
    var states := [s0, s1, s2, s3, s4];
    forall i | 0 <= i < |evs|
      ensures states[i + 1] == Step(o, states[i], evs[i]) && !StaleResume(states[i], evs[i])
    {
      if i == 0 {} else if i == 1 {} else if i == 2 {} else {}
    }
    NoStaleTrace(o, states, evs);
  }

  /** A recorded trace none of whose steps is a stale resume. */
  lemma {:induction false} NoStaleTrace(o: Options, states: seq<Conn>, evs: seq<Event>)
    requires |states| == |evs| + 1
    requires forall i :: 0 <= i < |evs| ==> states[i + 1] == Step(o, states[i], evs[i])
    requires forall i :: 0 <= i < |evs| ==> !StaleResume(states[i], evs[i])
    ensures NoStaleResume(o, states[0], evs)
    decreases |evs|
  {
    if evs != [] {
      NoStaleTrace(o, states[1..], evs[1..]);
    }
  }

  /** Two runs free of stale resumes, one after the other, make one. */
  lemma {:induction false} NoStaleResumeAppend(o: Options, s: Conn, a: seq<Event>, b: seq<Event>)
    requires NoStaleResume(o, s, a) && NoStaleResume(o, Run(o, s, a), b)
    ensures NoStaleResume(o, s, a + b)
    decreases |a|
  {
    if a == [] {
      assert a + b == b;
    } else {
      assert (a + b)[0] == a[0];
      assert (a + b)[1..] == a[1..] + b;
      NoStaleResumeAppend(o, Step(o, s, a[0]), a[1..], b);
    }
  }

  /** A hook promise that outlives its instance can also resolve after the
      next instance has opened, while that instance's own hook is pending.
      The resumed handler flushes the queue onto the new instance (the
      flush uses `this.ws`), before the new instance's hook has settled.
      No step of this run is a stale resume, so sends stay in call order;
      only the gate the hook puts in front of the flush is bypassed. */
  lemma ForeignResumeBypassesHook(x: Payload)
    ensures
      var o := Options(Defined(DefaultReconnectTimeoutMillis), Defined(OpenHook([], ReturnsPromise)));
      var evs := [SocketOpened, SocketClosed(0), TimerFired, SocketOpened, Send(x), HookSettled(0, false)];
      var t := Run(o, Initial, evs);
      NoStaleResume(o, Initial, evs)
      && t.socket == 1 && t.readyState == Open && t.suspended == [1]
      && t.isOpen && t.log == [x] && t.pending == []
  {
    var o := Options(Defined(DefaultReconnectTimeoutMillis), Defined(OpenHook([], ReturnsPromise)));
    var first := [SocketOpened, SocketClosed(0), TimerFired, SocketOpened];
    var second := [Send(x), HookSettled(0, false)];
    ForeignResumeBeforeSend();
    ForeignResumeFlushes(x);
    RunAppend(o, Initial, first, second);
    NoStaleResumeAppend(o, Initial, first, second);
    assert first + second == [SocketOpened, SocketClosed(0), TimerFired, SocketOpened, Send(x), HookSettled(0, false)];
  }

  /** The first part: instance 0 opens and suspends on its hook, drops, is
      replaced, and instance 1 opens and suspends on its own hook; both
      handlers are now waiting. */
  lemma ForeignResumeBeforeSend()
    ensures var o := Options(Defined(DefaultReconnectTimeoutMillis), Defined(OpenHook([], ReturnsPromise)));
      var first := [SocketOpened, SocketClosed(0), TimerFired, SocketOpened];
      Run(o, Initial, first) == Conn(1, Open, [], false, false, [], {0}, [], [0, 1], [], [], [])
      && NoStaleResume(o, Initial, first)
  {
    var o := Options(Defined(DefaultReconnectTimeoutMillis), Defined(OpenHook([], ReturnsPromise)));
    var s1 := Initial.(readyState := Open, suspended := [0]);
    var s2 := s1.(readyState := Closed, timers := [0]);
    var s3 := s2.(socket := 1, readyState := Connecting, reinited := {0}, timers := []);
    var s4 := s3.(readyState := Open, suspended := [0, 1]);
    RunThrough4(o, Initial, s1, s2, s3, s4, [SocketOpened, SocketClosed(0), TimerFired, SocketOpened]);
    NoStaleThrough4(o, Initial, s1, s2, s3, s4, [SocketOpened, SocketClosed(0), TimerFired, SocketOpened]);
  }

  /** The second part: `x` is queued, then instance 0's handler resumes and
      flushes it onto instance 1, whose hook is still pending. */
  lemma ForeignResumeFlushes(x: Payload)
    ensures var o := Options(Defined(DefaultReconnectTimeoutMillis), Defined(OpenHook([], ReturnsPromise)));
      var s4 := Conn(1, Open, [], false, false, [], {0}, [], [0, 1], [], [], []);
      var second := [Send(x), HookSettled(0, false)];
      Run(o, s4, second) == Conn(1, Open, [x], true, false, [], {0}, [], [1], [], [x], [x])
      && NoStaleResume(o, s4, second)
  {
    var o := Options(Defined(DefaultReconnectTimeoutMillis), Defined(OpenHook([], ReturnsPromise)));
    var s4 := Conn(1, Open, [], false, false, [], {0}, [], [0, 1], [], [], []);
    var s5 := s4.(submitted := [x], pending := [x]);
    var s6 := s5.(isOpen := true, log := [x], handedOff := [x], pending := [], suspended := [1]);
    assert Step(o, s4, Send(x)) == s5;
    assert s5.suspended[..0] + s5.suspended[1..] == [1];
    assert Step(o, s5, HookSettled(0, false)) == s6;
    var states := [s4, s5, s6];
    var second := [Send(x), HookSettled(0, false)];
    RunTrace(o, states, second);
    NoStaleTrace(o, states, second);
  }

  /** A hook promise can also resolve while `this.ws` is still the instance
      it was run for, after that instance has closed and before its
      reconnect timer fires. The handler sets `isOpen` and passes every
      queued payload to the closed instance, which discards them, and
      empties the queue: `x` never reaches any instance, although no step
      of the run is a stale resume and the hand-off ledger counts `x`. */
  lemma ClosedResumeDropsQueue(x: Payload)
    ensures
      var o := Options(Defined(DefaultReconnectTimeoutMillis), Defined(OpenHook([], ReturnsPromise)));
      var evs := [SocketOpened, Send(x), SocketClosed(0), HookSettled(0, false)];
      var t := Run(o, Initial, evs);
      NoStaleResume(o, Initial, evs)
      && t.socket == 0 && t.readyState == Closed && t.isOpen && t.timers == [0]
      && t.log == [] && t.pending == [] && t.handedOff == [x] && t.submitted == [x]
  {
    var o := Options(Defined(DefaultReconnectTimeoutMillis), Defined(OpenHook([], ReturnsPromise)));
    var s1 := Initial.(readyState := Open, suspended := [0]);
    var s2 := s1.(submitted := [x], pending := [x]);
    var s3 := s2.(readyState := Closed, timers := [0]);
    var s4 := s3.(isOpen := true, handedOff := [x], pending := [], suspended := []);
    RunThrough4(o, Initial, s1, s2, s3, s4, [SocketOpened, Send(x), SocketClosed(0), HookSettled(0, false)]);
    NoStaleThrough4(o, Initial, s1, s2, s3, s4, [SocketOpened, Send(x), SocketClosed(0), HookSettled(0, false)]);
  }

  /** A reconnect in the middle of a session (`reconnectTimeoutMillis: 500`,
      default hook): `a` and `b` go out on instance 0, the transport drops,
      `c` is queued, the timer re-runs `init()`, instance 1 opens and
      receives `c` and then `d`. */
  lemma ReconnectKeepsSendOrder(a: Payload, b: Payload, c: Payload, d: Payload)
    ensures
      var o := Merge(Given(WebSocketOptions(Given(500), Omitted)));
      var t := Run(o, Initial, [SocketOpened, Send(a), Send(b), SocketClosed(0),
                                Send(c), TimerFired, SocketOpened, Send(d)]);
      t.socket == 1 && t.log == [c, d] && t.handedOff == [a, b, c, d] && t.pending == []
  {
    var o := Options(Defined(500), Defined(NoOpHook));
    assert Merge(Given(WebSocketOptions(Given(500), Omitted))) == o;
    var first := [SocketOpened, Send(a), Send(b), SocketClosed(0)];
    var second := [Send(c), TimerFired, SocketOpened, Send(d)];
    var s4 := ReconnectBeforeDrop(a, b);
    ReconnectAfterDrop(a, b, c, d);
    assert first + second == [SocketOpened, Send(a), Send(b), SocketClosed(0),
                              Send(c), TimerFired, SocketOpened, Send(d)];
    RunAppend(o, Initial, first, second);
  }

  /** The first half of that session: `a` and `b` go out on instance 0,
      then instance 0 drops and schedules its reconnect timer. */
  lemma ReconnectBeforeDrop(a: Payload, b: Payload) returns (s4: Conn)
    ensures s4 == Conn(0, Closed, [a, b], true, false, [], {}, [0], [], [], [a, b], [a, b])
    ensures Run(Options(Defined(500), Defined(NoOpHook)), Initial,
                [SocketOpened, Send(a), Send(b), SocketClosed(0)]) == s4
  {
    var o := Options(Defined(500), Defined(NoOpHook));
    var s1 := Initial.(readyState := Open, isOpen := true);
    var s2 := s1.(log := [a], submitted := [a], handedOff := [a]);
    var s3 := s2.(log := [a, b], submitted := [a, b], handedOff := [a, b]);
    s4 := s3.(readyState := Closed, timers := [0]);
    RunThrough4(o, Initial, s1, s2, s3, s4, [SocketOpened, Send(a), Send(b), SocketClosed(0)]);
  }

  /** The second half: `isOpen` is still set but instance 0 is closed, so
      `c` is queued; the timer re-runs `init()`; instance 1 opens, receives
      `c`, and `d` goes straight out after it. */
  lemma ReconnectAfterDrop(a: Payload, b: Payload, c: Payload, d: Payload)
    ensures var t := Run(Options(Defined(500), Defined(NoOpHook)),
                         Conn(0, Closed, [a, b], true, false, [], {}, [0], [], [], [a, b], [a, b]),
                         [Send(c), TimerFired, SocketOpened, Send(d)]);
      t == Conn(1, Open, [c, d], true, false, [], {0}, [], [], [], [a, b, c, d], [a, b, c, d])
  {
    var o := Options(Defined(500), Defined(NoOpHook));
    var s4 := Conn(0, Closed, [a, b], true, false, [], {}, [0], [], [], [a, b], [a, b]);
    var s5 := s4.(submitted := [a, b, c], pending := [c]);
    var s6 := s5.(socket := 1, readyState := Connecting, log := [], isOpen := false,
                  reinited := {0}, timers := []);
    var s7 := s6.(readyState := Open, isOpen := true, log := [c], handedOff := [a, b, c], pending := []);
    var s8 := s7.(log := [c, d], submitted := [a, b, c, d], handedOff := [a, b, c, d]);
    RunThrough4(o, s4, s5, s6, s7, s8, [Send(c), TimerFired, SocketOpened, Send(d)]);
  }

  // ---------------------------------------------------------------------
  // Re-initialisation: at most once per transport instance

  /** A firing timer re-runs `init()` exactly when it belongs to the
      current instance; `init()` then clears both flags and brings in a new,
      connecting instance, and the queue carries over. A timer of an older
      instance finds its `reinited` flag set and does nothing. */
  lemma ReinitOnlyFromCurrentSocket(o: Options, s: Conn)
    requires Inv(s) && s.timers != []
    ensures var t := Step(o, s, TimerFired);
      (t.socket == s.socket + 1 <==> s.timers[0] == s.socket)
      && (s.timers[0] == s.socket ==>
            !t.isOpen && !t.closedManually && t.readyState == Connecting && t.log == []
            && t.pending == s.pending && s.socket in t.reinited)
      && (s.timers[0] != s.socket ==> t == s.(timers := s.timers[1..]))
  {
  }

  /** How many of the events make a timer of instance `k` run `init()`. */
  function ReinitsBy(o: Options, s: Conn, evs: seq<Event>, k: nat): nat
    decreases |evs|
  {
    if evs == [] then 0
    else (if Reinits(s, evs[0], k) then 1 else 0) + ReinitsBy(o, Step(o, s, evs[0]), evs[1..], k)
  }

  /** However many `close` and `error` events an instance fires, and however
      many timers they schedule, its timers run `init()` at most once in
      any run, and never once its flag is set. */
  lemma {:induction false} AtMostOneReinitPerSocket(o: Options, s: Conn, evs: seq<Event>, k: nat)
    ensures ReinitsBy(o, s, evs, k) <= (if k in s.reinited then 0 else 1)
    decreases |evs|
  {
    if evs != [] {
      var t := Step(o, s, evs[0]);
      AtMostOneReinitPerSocket(o, t, evs[1..], k);
      if Reinits(s, evs[0], k) {
        assert k in t.reinited;
      }
    }
  }

  /** An `error` followed by a `close` on the current instance schedules two
      timers, and only the first re-runs `init()`. */
  lemma ErrorAndCloseReinitOnce(o: Options, s: Conn)
    requires Inv(s) && !s.closedManually && s.timers == []
    ensures var t := Run(o, s, [SocketClosed(s.socket), SocketClosed(s.socket), TimerFired, TimerFired]);
      t.socket == s.socket + 1 && t.timers == [] && ReinitsBy(o, s, [SocketClosed(s.socket),
        SocketClosed(s.socket), TimerFired, TimerFired], s.socket) == 1
  {
    var n := s.socket;
    var s1 := Step(o, s, SocketClosed(n));
    var s2 := Step(o, s1, SocketClosed(n));
    assert s2.timers == [n, n] && s2.socket == n && n !in s2.reinited;
    var s3 := Step(o, s2, TimerFired);
    assert s3.timers == [n] && s3.socket == n + 1 && n in s3.reinited;
    var s4 := Step(o, s3, TimerFired);
    assert s4.timers == [] && s4.socket == n + 1;
    var evs := [SocketClosed(n), SocketClosed(n), TimerFired, TimerFired];
    assert evs[1..] == [SocketClosed(n), TimerFired, TimerFired];
    assert evs[2..] == [TimerFired, TimerFired];
    assert Run(o, s, evs) == Run(o, s1, evs[1..]) == Run(o, s2, evs[2..])
        == Run(o, s3, [TimerFired]) == Run(o, s4, []);
    assert ReinitsBy(o, s3, [TimerFired], n) == 0;
    assert ReinitsBy(o, s2, evs[2..], n) == 1;
  }

  // ---------------------------------------------------------------------
  // `close()`

  /** `close(code, reason)` sets `closedManually` whatever its arguments.
      With valid arguments it starts closing the transport; with invalid
      ones the transport throws and stays as it was. */
  lemma CloseClosesTransport(o: Options, s: Conn, code: CloseCode, reason: seq<bv8>)
    ensures var t := Step(o, s, Close(code, reason));
      t.closedManually && t.isOpen == s.isOpen
      && t.timers == s.timers && t.pending == s.pending && t.socket == s.socket
      && (CloseArgsValid(code, reason) ==> t.readyState != Open && t.readyState != Connecting)
      && (!CloseArgsValid(code, reason) ==> t.readyState == s.readyState)
  {
  }

  /** A `close` the transport rejects leaves an open connection usable:
      `isOpen` and the OPEN instance survive, so a later send still goes
      straight out, although no reconnect will follow a drop. */
  lemma RejectedCloseKeepsSending(o: Options, s: Conn, code: CloseCode, reason: seq<bv8>, p: Payload)
    requires !CloseArgsValid(code, reason) && s.isOpen && s.readyState == Open
    ensures var t := Run(o, s, [Close(code, reason), Send(p)]);
      t.closedManually && t.isOpen && t.readyState == Open && t.log == s.log + [p]
      && t.pending == s.pending
  {
    var s1 := Step(o, s, Close(code, reason));
    assert s1 == s.(closedManually := true);
    assert Run(o, s, [Close(code, reason), Send(p)]) == Run(o, s1, [Send(p)]);
    assert Run(o, s1, [Send(p)]) == Step(o, s1, Send(p));
  }

  /** After `close()`, a `close` or `error` event from any instance does
      nothing but record the transport's own state: no timer is scheduled. */
  lemma CloseEventIgnoredAfterClose(o: Options, s: Conn, k: nat)
    requires s.closedManually && k <= s.socket
    ensures var t := Step(o, s, SocketClosed(k));
      t == s.(readyState := if k == s.socket then Closed else s.readyState)
  {
  }

  /** Once closed manually, any run of events in which no timer fires keeps
      the connection closed, schedules no reconnect and keeps the instance. */
  lemma {:induction false} ClosedRunSchedulesNothing(o: Options, s: Conn, evs: seq<Event>)
    requires s.closedManually
    requires forall i :: 0 <= i < |evs| ==> !evs[i].TimerFired?
    ensures var t := Run(o, s, evs); t.closedManually && t.timers == s.timers && t.socket == s.socket
    decreases |evs|
  {
    if evs != [] {
      var t := Step(o, s, evs[0]);
      assert t.closedManually && t.timers == s.timers && t.socket == s.socket;
      ClosedRunSchedulesNothing(o, t, evs[1..]);
    }
  }

  /** Events none of whose steps makes a timer re-run `init()`. */
  ghost predicate NoReinit(o: Options, s: Conn, evs: seq<Event>)
    decreases |evs|
  {
    evs == [] || ((forall k: nat :: !Reinits(s, evs[0], k)) && NoReinit(o, Step(o, s, evs[0]), evs[1..]))
  }

  /** Once closed manually, along any run in which no timer re-runs
      `init()` (timers of older instances may fire), the connection stays
      closed, keeps its instance, and the pending timers only shrink from
      the front: nothing new is scheduled. */
  lemma {:induction false} ClosedRunWithoutReinit(o: Options, s: Conn, evs: seq<Event>)
    requires s.closedManually && NoReinit(o, s, evs)
    ensures var t := Run(o, s, evs);
      t.closedManually && t.socket == s.socket
      && |t.timers| <= |s.timers| && t.timers == s.timers[|s.timers| - |t.timers|..]
    decreases |evs|
  {
    if evs != [] {
      var t := Step(o, s, evs[0]);
      ClosedStepWithoutReinit(o, s, evs[0]);
      ClosedRunWithoutReinit(o, t, evs[1..]);
      var u := Run(o, t, evs[1..]);
      if t.timers != s.timers {
        assert u.timers == s.timers[1..][|s.timers| - 1 - |u.timers|..];
      }
    }
  }

  /** One step of such a run. */
  lemma ClosedStepWithoutReinit(o: Options, s: Conn, e: Event)
    requires s.closedManually && forall k: nat :: !Reinits(s, e, k)
    ensures var t := Step(o, s, e);
      t.closedManually && t.socket == s.socket
      && (t.timers == s.timers || (s.timers != [] && t.timers == s.timers[1..]))
  {
    if e.TimerFired? && s.timers != [] {
      assert !Reinits(s, e, s.timers[0]);
    }
  }

  /** No reconnect is scheduled by events that arrive after `close()`,
      whatever its arguments, up to the first timer that fires. */
  lemma NoReconnectScheduledAfterClose(o: Options, s: Conn, code: CloseCode, reason: seq<bv8>,
                                       evs: seq<Event>)
    requires forall i :: 0 <= i < |evs| ==> !evs[i].TimerFired?
    ensures var t := Run(o, s, [Close(code, reason)] + evs);
      t.closedManually && t.timers == s.timers && t.socket == s.socket
  {
    var s1 := Step(o, s, Close(code, reason));
    RunCons(o, s, Close(code, reason), evs);
    ClosedRunSchedulesNothing(o, s1, evs);
  }

  /** But `close()` does not cancel a timer that is already pending: when
      it fires it re-runs `init()`, which clears `closedManually`, and the
      connection comes back. */
  lemma PendingTimerRevivesAfterClose(o: Options, s: Conn, code: CloseCode, reason: seq<bv8>)
    requires Inv(s) && s.timers == [s.socket]
    ensures var t := Run(o, s, [Close(code, reason), TimerFired]);
      t.socket == s.socket + 1 && !t.closedManually && t.readyState == Connecting
  {
    var s1 := Step(o, s, Close(code, reason));
    var s2 := Step(o, s1, TimerFired);
    assert s.socket !in s1.reinited;
    assert Run(o, s, [Close(code, reason), TimerFired]) == Run(o, s1, [TimerFired]) == Run(o, s2, []);
  }
}
