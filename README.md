# RobustWebSocket, modelled in Dafny

`RobustWebSocket` wraps one browser WebSocket and keeps a logical connection
alive across transport failures. While the connection is not usable, the
payloads given to `send` wait in a FIFO queue (`pendingOnOpens`). Every time a
transport instance opens, the user's `onOpen` hook runs with it. Then the
controller sets `isOpen` and flushes the queue in order. When an instance fires
`close` or `error` and the consumer has not called `close()`, a timer is
scheduled. When the timer fires it re-runs `init()`, unless the same instance's
`reinited` flag is already set. After `close()`, `close` and `error` events
schedule nothing.

The project has four parts:

- `wire.dfy`, module `Wire`, is the transport as the controller sees it. Class
  `Transport` has a ready state and a ghost log of the payloads it put on the
  wire. Its `send` throws while CONNECTING, transmits when OPEN, and discards
  once CLOSING or CLOSED. Its `close(code, reason)` throws, changing nothing,
  when the code is given and is neither 1000 nor in 3000-4999 or the reason
  is longer than 123 bytes; otherwise it moves a CONNECTING or OPEN instance
  to CLOSING. `RobustWebSocket.close` sets `closedManually` before calling
  it, so the flag stays set even when it throws (index.ts:92-93).
- `config.dfy`, module `Config`, covers the options and the constructor's
  `{ ...defaults, ...options }` merge. A property the caller leaves out keeps
  its default. A property written as `undefined` overrides the default with
  `undefined`. The hook is modelled by its effect: the payloads it sends on
  the instance it is given, then how it returns (nothing, a promise, or a
  throw).
- `lifecycle.dfy`, module `Lifecycle`, is the controller as a state machine
  over values.
  - `Conn` holds the controller's fields, the current instance's ready state
    and log, and the callbacks the event loop still holds: the reconnect
    timers, tagged by instance, and the `onopen` handlers suspended on a hook
    promise.
  - `Conn` also holds two ledgers. One records the payloads given to `send`;
    the other records the payloads passed to a transport's `send`.
  - `Step` says what one event does. `Inv` is the invariant every reachable
    state satisfies.
- `robust_websocket.dfy`, module `RobustSocket`, is class `RobustWebSocket`.
  Its fields are updated in place. There is one method per event, and each is
  proved to perform exactly `Lifecycle.Step` and to keep `Lifecycle.Inv`.
  `FlushPending` is the `for` loop of the `onopen` handler.

`properties.dfy`, module `Properties`, proves what the steps guarantee:

- FIFO order of sends across reconnects.
- The queue is empty after a flush.
- The hook's own sends come before queued ones.
- At most one `init()` per transport instance.
- No reconnect is scheduled by events that arrive after `close()`.

Four behaviours of the source deserve a note:

- A hook that throws or rejects, or an `onOpen` explicitly set to
  `undefined`, aborts the `onopen` handler before `isOpen` is set, and the
  queue is then not flushed (index.ts:33-39).
- `isOpen` is not cleared when the instance closes; only the next `init()`
  clears it. This is why `_doWhenOpen` also checks `readyState`
  (index.ts:52-66, index.ts:71-77).
- `close()` does not cancel a pending reconnect timer. When that timer fires,
  `init()` resets `closedManually` and the connection comes back
  (index.ts:59-64, index.ts:91-94).
- A hook promise can outlive the instance it was run for, and its handler
  then resumes against whatever `this.ws` is by then (index.ts:36-48). If it
  resumes while the next instance is still connecting, it sets `isOpen` for
  that instance; if that instance's own hook is asynchronous, a send made
  after it opens overtakes the payloads still queued (`StaleResumeReorders`).
  If it resumes after the next instance has opened, it flushes the queue onto
  that instance before the instance's own hook has settled
  (`ForeignResumeBypassesHook`). If it resumes while `this.ws` is still its
  own instance, already closed and with the reconnect timer not yet fired,
  it sets `isOpen` and passes the whole queue to the closed instance, which
  discards it; the queue is emptied, so those payloads never reach the next
  instance, although index.ts:79-82 says a queued message waits until the
  connection is reestablished (`ClosedResumeDropsQueue`).

## Model

| member | source | states |
|---|---|---|
| Config.Merge | index.ts:14-24 | Without an options object the defaults stand: a 5000 ms delay and a no-op hook. Otherwise each property is decided on its own. Left out, it keeps its default. Given a value, it takes that value. Written as `undefined`, it becomes `undefined`. |
| Lifecycle.Step | index.ts:28-94 | The `send` ledger, the hand-off ledger and the set of `reinited` flags only grow. The current instance changes only when the earliest timer fires for an instance whose flag is clear, and then to the next id. |
| Lifecycle.Reinit | index.ts:28-31 | `init()` run again: a new instance with the next id, connecting, with nothing transmitted yet; `isOpen` and `closedManually` cleared; everything else (queue, timers, flags, suspended handlers, ledgers, delivered messages) carried over unchanged. |
| Lifecycle.Flush | index.ts:39-48 | The end of the `onopen` handler: `isOpen` set, the queue empty, every queued payload handed off in order and transmitted only if the instance is OPEN; nothing else changes. |
| Lifecycle.OpenHandler | index.ts:33-38 | Defined only for an instance that is OPEN. An undefined hook changes nothing. Otherwise the instance first transmits the hook's payloads; a hook returning nothing then flushes the queue after them (setting `isOpen`), a promise adds a suspended handler for the current instance, and a throw leaves the queue and `isOpen` as they were. |
| Lifecycle.InitialInv | index.ts:21-31 | The state right after construction satisfies the invariant: no flag set, no timer, no suspended handler, an empty queue. |
| Lifecycle.StepPreservesInv | index.ts:28-94 | Every event keeps the invariant. Exactly the instances older than the current one have their flag set. Every pending timer and suspended handler belongs to an existing instance. A handler suspended while the current instance connects belongs to an older one. Handed-off payloads plus queued payloads are, as a multiset, exactly the payloads given to `send`. |
| Lifecycle.OpenHandlerPreservesInv | index.ts:33-49 | Running the hook and then flushing, suspending or stopping keeps the invariant. |
| Lifecycle.FlushPreservesInv | index.ts:39-48 | The flush moves every queued payload to the hand-off ledger and loses none. |
| Lifecycle.SettlePreservesInv | index.ts:35-48 | A settling hook promise, resolved or rejected, keeps the invariant. |
| Lifecycle.ClosedPreservesInv | index.ts:52-66 | A `close` or `error` event keeps the invariant. The timer it schedules is tagged with an existing instance. |
| Lifecycle.TimerPreservesInv | index.ts:59-64 | A firing timer keeps the invariant. If it re-runs `init()`, the flag of the replaced instance is now set and the new instance's flag is clear. |
| Lifecycle.SendPreservesInv | index.ts:71-88 | A `send`, dispatched or queued, keeps the payload accounting exact. |
| RobustSocket.RobustWebSocket.constructor | index.ts:21-26 | The options are `Merge(options)`. One fresh instance is connecting. Both flags are false, the queue is empty, and the invariant holds. |
| RobustSocket.RobustWebSocket.Init | index.ts:28-31 | Clears `isOpen` and `closedManually` and installs a fresh, connecting instance with a new id. Queue and timers carry over. |
| RobustSocket.RobustWebSocket.SocketOpened | index.ts:33-49 | The open event performs exactly `Step(SocketOpened)` and keeps `Valid`. |
| RobustSocket.RobustWebSocket.RunHook | index.ts:34 | The instance transmits the hook's own payloads, in order, and stays open. |
| RobustSocket.RobustWebSocket.FlushPending | index.ts:39-48 | Sets `isOpen` and passes every queued payload to the instance, in order. A throwing send is caught and the loop goes on. The queue ends empty, as `Flush` says. |
| RobustSocket.RobustWebSocket.HookSettled | index.ts:35-48 | A settling hook promise performs exactly `Step(HookSettled)`. |
| RobustSocket.RobustWebSocket.SocketClosed | index.ts:52-66 | A `close` or `error` from any instance, current or older, performs exactly `Step(SocketClosed)`. |
| RobustSocket.RobustWebSocket.TimerFired | index.ts:59-64 | The earliest timer performs exactly `Step(TimerFired)`. The instance is either kept or replaced by a fresh one. |
| RobustSocket.RobustWebSocket.Deliver | index.ts:68 | An inbound message is appended to what the consumer received. |
| RobustSocket.RobustWebSocket.Send | index.ts:84-88 | `send` through `_doWhenOpen` performs exactly `Step(Send)`. |
| RobustSocket.RobustWebSocket.Close | index.ts:91-94 | `close(code, reason)` performs exactly `Step(Close(code, reason))`, and throws if and only if the transport rejects the arguments. |
| Properties.SendDispatchesOnlyWhenOpen | index.ts:71-77 | A payload is transmitted and handed off at once if and only if `isOpen` is set and the instance is OPEN. Otherwise it is queued and nothing is transmitted. |
| Properties.SendsQueueWhileNotOpen | index.ts:71-77 | Any number of sends while the connection is unusable only extend the queue, in call order. |
| Properties.MessagesDeliveredInOrder | index.test.ts:30-43 | The consumer receives inbound messages in arrival order, none dropped or repeated. |
| Properties.IsOpenOutlivesTransport | index.ts:71-77 | After the open instance closes, `isOpen` is still set, but a send is queued, not transmitted. |
| Properties.SettledHookFlushesQueue | index.ts:39-48 | When the hook promise resolves, `isOpen` is set and the queue is empty. Every queued payload was handed off in order, and transmitted if the instance is open. |
| Properties.RejectedHookLeavesQueue | index.ts:33-39 | When the hook promise rejects, `isOpen` and the queue are unchanged. |
| Properties.SyncHookOpensAndFlushes | index.ts:33-48 | With a hook that returns nothing, opening transmits the hook's payloads and then the whole queue, and leaves the queue empty. |
| Properties.HookSendsPrecedeQueued | index.test.ts:146-166 | With a hook that returns a promise, in the run of the open, any number of sends and that hook's own settlement: while it is pending only the hook's payloads are transmitted and the sends are queued; once it resolves, the instance has transmitted the hook's payloads, then the earlier queue, then the later sends. |
| Properties.StaleResumeIsFromEarlierSocket | index.ts:33-39 | A handler that resumes while the current instance is connecting was suspended on an older instance. |
| Properties.FifoInitial | index.ts:19 | The queue discipline holds at construction. |
| Properties.FifoStep | index.ts:33-88 | Every event except a stale resume keeps the queue discipline. Handed-off payloads followed by queued payloads equal the `send` calls in order. `isOpen` is never set on a connecting instance. Nothing is queued while the connection is usable. |
| Properties.FifoAcrossReconnects | index.ts:79-83 | Along any run without a stale resume, across any number of reconnects, the queue discipline holds and the hand-off ledger only grows. |
| Properties.SendOrderFromConstruction | index.ts:79-83 | From construction on, every payload given to `send` is handed off or still queued, in call order, if no stale resume occurs. |
| Properties.StaleResumeReorders | index.ts:33-39 | With an asynchronous hook, there is a run where instance 0's handler resumes while instance 1 connects. In that run `send(a)` then `send(b)` reach instance 1 as `b` then `a`. |
| Properties.StaleResumeBeforeSends | index.ts:33-39 | First half of that run: the resume sets `isOpen` while instance 1 is still connecting. |
| Properties.StaleResumeSends | index.ts:71-77 | Second half: `b` passes the `isOpen` and OPEN check while `a` is still queued. |
| Properties.ForeignResumeBypassesHook | index.ts:36-48 | With an asynchronous hook, there is a run free of stale resumes in which instance 0's handler resumes after instance 1 has opened and flushes a queued payload onto instance 1 while instance 1's own hook is still pending. |
| Properties.ForeignResumeBeforeSend | index.ts:33-37 | First part of that run: both instances' handlers end up suspended, instance 1 open. |
| Properties.ForeignResumeFlushes | index.ts:39-48 | Second part: the payload is queued, then instance 0's handler sets `isOpen` and transmits it on instance 1. |
| Properties.ClosedResumeDropsQueue | index.ts:36-48 | With an asynchronous hook, there is a run free of stale resumes in which the hook resolves after its own instance has closed: `isOpen` is set, the queue is emptied, the queued payload is counted as handed off, and no instance transmitted it. |
| Properties.ReconnectKeepsSendOrder | index.test.ts:83-113 | `a` and `b` go out on the first instance. It drops, and `c` is queued. The timer re-runs `init()`. The new instance receives `c` and then `d`. |
| Properties.ReconnectBeforeDrop | index.test.ts:87-96 | The first half of that session, state by state. |
| Properties.ReconnectAfterDrop | index.test.ts:100-109 | The second half of that session, state by state. |
| Properties.ReinitOnlyFromCurrentSocket | index.ts:59-64 | A firing timer re-runs `init()` if and only if it belongs to the current instance. `init()` clears both flags, brings in a connecting instance and keeps the queue. A timer of an older instance does nothing else. |
| Properties.AtMostOneReinitPerSocket | index.ts:51-64 | In any run, the timers of one instance re-run `init()` at most once, and never once its flag is set. |
| Properties.ErrorAndCloseReinitOnce | index.ts:59-63 | `error` followed by `close` on one instance schedules two timers, and exactly one of them re-runs `init()`. |
| Properties.CloseClosesTransport | index.ts:91-94 | `close(code, reason)` sets `closedManually` whatever its arguments. With valid arguments the instance is left neither CONNECTING nor OPEN; with invalid ones the transport throws and its ready state is unchanged. `isOpen`, timers and queue are unchanged. |
| Properties.RejectedCloseKeepsSending | index.ts:91-93 | After a `close` whose arguments the transport rejects, an open connection stays open with `isOpen` set, so a later send is transmitted at once, while `closedManually` is set. |
| Properties.CloseEventIgnoredAfterClose | index.ts:52-56 | After `close()`, a `close` or `error` event schedules no timer and changes nothing but the transport's own state. |
| Properties.ClosedRunWithoutReinit | index.ts:52-64 | Once closed manually, along any run in which no timer re-runs `init()`, the connection stays closed manually, keeps its instance, and the pending timers are only ever a suffix of those pending at the start: nothing new is scheduled. |
| Properties.ClosedStepWithoutReinit | index.ts:52-64 | One step of such a run: the flag and the instance are kept, and the timers are unchanged or lose their head. |
| Properties.ClosedRunSchedulesNothing | index.ts:52-56 | Once closed manually, a run in which no timer fires schedules no reconnect and keeps the instance. |
| Properties.NoReconnectScheduledAfterClose | index.test.ts:136-143 | Events after `close()`, with any arguments, up to the first firing timer, schedule no reconnect. |
| Properties.PendingTimerRevivesAfterClose | index.ts:59-64 | A timer already pending when `close()` is called still re-runs `init()`. That clears `closedManually` and brings in a new connecting instance. |

## Left out

- Delay values and wall-clock time. `reconnectTimeoutMillis` is merged but unused. All timers share one delay, so they fire in the order they were scheduled, which is what the model keeps.
- The `async`/`await` machinery. An `onopen` handler that awaits a promise is a suspended entry that a later `HookSettled` event resumes.
- The hook itself. It is modelled by what it does to the connection: the payloads it sends on the instance and how it returns. Any other side effect is out of scope.
- The hook's behaviour is fixed in the options: every open sends the same payloads and returns the same way. A hook that behaves differently from one open to the next is not expressed, and neither is one that sends after an `await` (onto the instance it captured, which may have closed by then). All hook payloads are sent synchronously when the instance opens. The step lemmas hold for every options value, so none of the proved properties depends on a particular hook.
- The content of `close` and `error` events, which the controller only logs.
- The `reason` of `close(code, reason)` is taken as its UTF-8 bytes, empty when left out; text encoding itself is not modelled.
- `console.log` and `console.error` output.
- Construction of a real WebSocket. `Wire.Transport` stands for it and exposes only what the controller uses.
- An older instance that opens after it was replaced. Open events are modelled only for the current instance.
- The endpoint factory, the "already open" handling and the `onDisconnect` hook. The tests exercise them, but `index.ts` does not implement them.
- `index.d.ts` and `jest.config.js`.
- Properties.HookSendsPrecedeQueued: the hook gates the flush only when no other suspended handler settles before that hook does; a handler of an older instance that resumes first flushes the queue early, as `ForeignResumeBypassesHook` shows.
- Properties.FifoAcrossReconnects: the hand-off ledger records what was passed to a transport's `send`, not what was transmitted; a payload flushed onto a closed instance counts as handed off and is lost, as `ClosedResumeDropsQueue` shows.
- Properties.FifoAcrossReconnects: holds only for runs without a stale resume. With one, the source can reorder sends, as `StaleResumeReorders` shows.
- Properties.SendOrderFromConstruction: covers the same runs as `FifoAcrossReconnects`, and excludes stale resumes for the same reason.
- Payloads handed off while the instance is connecting, closing or closed are lost by the transport. The model records them in the hand-off ledger but not in the instance's log; no retry is modelled because the source has none.
