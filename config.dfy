/**
  The options of a RobustWebSocket and how the constructor merges the
  caller's options over the defaults (`{ ...defaults, ...options }`).
 */
module Config {
  import opened Wire

  /** A JavaScript property or argument as a caller writes it: left out,
      written as `undefined`, or given a value. */
  datatype Optional<T> = Omitted | ExplicitUndefined | Given(value: T)

  /** A property as the merged object holds it. */
  datatype Maybe<T> = Undefined | Defined(value: T)

  /** What a call of the `onOpen` hook returns: nothing (run on at once), a
      promise (wait for it to settle), or it throws. */
  datatype HookReturn = ReturnsNothing | ReturnsPromise | Throws

  /** The effect of one call of the user's `onOpen(ws)` hook: the payloads
      it sends directly on the socket it is given, then how it returns (`outcome`). */
  datatype OpenHook = OpenHook(primes: seq<Payload>, outcome: HookReturn)

  /** The default hook `(_) => {}`: sends nothing and returns nothing. */
  const NoOpHook := OpenHook([], ReturnsNothing)

  const DefaultReconnectTimeoutMillis := 5000

  /** `WebSocketOptions` as a caller supplies it. */
  datatype WebSocketOptions = WebSocketOptions(
    reconnectTimeoutMillis: Optional<int>,
    onOpen: Optional<OpenHook>)

  /** The merged options the controller keeps. */
  datatype Options = Options(
    reconnectTimeoutMillis: Maybe<int>,
    onOpen: Maybe<OpenHook>)

  const Defaults := Options(Defined(DefaultReconnectTimeoutMillis), Defined(NoOpHook))

  /** Spreading one property over a base value. */
  function Override<T>(base: Maybe<T>, p: Optional<T>): Maybe<T>
  {
    match p
    case Omitted => base
    case ExplicitUndefined => Undefined
    case Given(v) => Defined(v)
  }

  /** The constructor's merge: a falsy `options` argument keeps the
      defaults; otherwise every property the caller wrote wins (an explicit
      `undefined` included) and every property left out keeps its default. */
  function Merge(options: Optional<WebSocketOptions>): (o: Options)
    ensures !options.Given? ==> o == Defaults
    ensures options.Given? && options.value.reconnectTimeoutMillis.Omitted?
      ==> o.reconnectTimeoutMillis == Defined(DefaultReconnectTimeoutMillis)
    ensures options.Given? && options.value.reconnectTimeoutMillis.Given?
      ==> o.reconnectTimeoutMillis == Defined(options.value.reconnectTimeoutMillis.value)
    ensures options.Given? && options.value.reconnectTimeoutMillis.ExplicitUndefined?
      ==> o.reconnectTimeoutMillis == Undefined
    ensures options.Given? && options.value.onOpen.Omitted? ==> o.onOpen == Defined(NoOpHook)
    ensures options.Given? && options.value.onOpen.Given?
      ==> o.onOpen == Defined(options.value.onOpen.value)
    ensures options.Given? && options.value.onOpen.ExplicitUndefined? ==> o.onOpen == Undefined
  {
    match options
    case Given(user) =>
      Options(Override(Defaults.reconnectTimeoutMillis, user.reconnectTimeoutMillis),
              Override(Defaults.onOpen, user.onOpen))
    case _ => Defaults
  }
}
