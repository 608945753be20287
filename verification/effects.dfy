/**
  What the client does to the outside world in reaction to one signal: log
  lines, socket writes, calls of the market-update handler, socket creation
  and termination, and timers armed.
 */
module Effects {
  import opened JsValues

  datatype Level = Debug | Info | Warn | Error

  /** The log lines the client writes, with the values they interpolate. */
  datatype LogMsg =
    | ConnectingToFeed
    | ConnectionOpened
    | SubscriptionSent(frame: string)
    | HandshakeOk
    | ServerRequestedClose
    | PingReceived
    | OtherEvent(name: JsValue)
    | FailedToParse(raw: string)
    | MarketUpdate(marketId: JsValue, count: JsValue)
    | SocketError
    | ConnectionClosed(code: int)
    | ReconnectingIn(seconds: int)

  datatype Effect =
    | Log(level: Level, msg: LogMsg)
    | Send(frame: string)              // a write on the socket current at that moment
    | CallMarketHandler(data: JsValue)  // one call of the market-update handler
    | Terminate(handle: nat)
    | Create(handle: nat)
    | ArmSubscribeTimer
    | ArmReconnectTimer

  /** The frames written, in order. */
  function Sent(effs: seq<Effect>): (r: seq<string>)
    ensures |r| <= |effs|
    ensures forall f :: f in r <==> Send(f) in effs
  {
    if effs == [] then []
    else (if effs[0].Send? then [effs[0].frame] else []) + Sent(effs[1..])
  }

  /** The arguments of the market-update handler calls, in order. */
  function MarketCalls(effs: seq<Effect>): (r: seq<JsValue>)
    ensures |r| <= |effs|
    ensures forall d :: d in r <==> CallMarketHandler(d) in effs
  {
    if effs == [] then []
    else (if effs[0].CallMarketHandler? then [effs[0].data] else []) + MarketCalls(effs[1..])
  }

  /** Number of occurrences of `x` in `xs`. */
  function Count<T(==)>(xs: seq<T>, x: T): (n: nat)
    ensures n <= |xs|
    ensures n == 0 <==> x !in xs
  {
    if xs == [] then 0
    else (if xs[0] == x then 1 else 0) + Count(xs[1..], x)
  }

  lemma {:induction false} SentAppend(a: seq<Effect>, b: seq<Effect>)
    ensures Sent(a + b) == Sent(a) + Sent(b)
    decreases |a|
  {
    if a == [] {
      assert a + b == b;
    } else {
      assert (a + b)[1..] == a[1..] + b;
      SentAppend(a[1..], b);
    }
  }

  lemma {:induction false} CountAppend<T>(a: seq<T>, b: seq<T>, x: T)
    ensures Count(a + b, x) == Count(a, x) + Count(b, x)
    decreases |a|
  {
    if a == [] {
      assert a + b == b;
    } else {
      assert (a + b)[1..] == a[1..] + b;
      CountAppend(a[1..], b, x);
    }
  }
}
