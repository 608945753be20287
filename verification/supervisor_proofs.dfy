/**
  Properties of the connection lifecycle: what every reachable world
  satisfies, what runs of signals send, and the reconnect guard's behaviour
  as written and under the corrected policy.
 */
module SupervisorProofs {
  import opened Protocol
  import opened Effects
  import opened Session
  import opened Supervisor

  predicate HasCurrent(w: World) {
    w.client.ws.Socket? && w.client.ws.handle < |w.phases|
  }

  /** The phase of `this.ws`. */
  function Current(w: World): Phase
    requires HasCurrent(w)
  {
    w.phases[w.client.ws.handle]
  }

  /** The supervision rule: while the client should run, it is connected,
      connecting, or counting down to its next attempt. */
  ghost predicate Supervised(w: World) {
    w.client.shouldRun && HasCurrent(w) ==> Live(Current(w)) || w.reconnectTimers == 1
  }

  /** No signal can occur any more. */
  ghost predicate Stalled(w: World) {
    forall sig :: !Enabled(w, sig)
  }

  /** What every reachable world satisfies. `this.ws` is the latest socket;
      every older socket is closed; at most one reconnect timer and at most
      one subscription timer are pending; a pending reconnect means the guard
      is set and the current socket is closed; a pending subscription means
      the current socket has opened. Under the corrected policy the guard is
      set exactly while a reconnect is pending, and the client is supervised. */
  ghost predicate Inv(p: Policy, w: World) {
    && (w.client.ws.NoSocket? <==> |w.phases| == 0)
    && (w.client.ws.Socket? ==> w.client.ws.handle == |w.phases| - 1)
    && (forall i :: 0 <= i < |w.phases| - 1 ==> w.phases[i] == Closed)
    && (HasCurrent(w) ==> Current(w) != Closing)
    && w.reconnectTimers <= 1
    && w.subscribeTimers <= 1
    && (w.reconnectTimers == 1 ==> w.client.isReconnecting && HasCurrent(w) && Current(w) == Closed)
    && (w.subscribeTimers == 1 ==> HasCurrent(w) && Current(w) != Connecting)
    && (p == ClearGuardOnFire ==> (w.client.isReconnecting <==> w.reconnectTimers == 1))
    && (p == ClearGuardOnFire ==> Supervised(w))
  }

  /** Number of ping messages ("2") in a trace. */
  function PingCount(trace: seq<Signal>): nat {
    if trace == [] then 0
    else (if trace[0].OnMessage? && trace[0].text == "2" then 1 else 0) + PingCount(trace[1..])
  }

  /** Number of opens in a trace. */
  function OpenCount(trace: seq<Signal>): nat {
    if trace == [] then 0
    else (if trace[0].OnOpen? then 1 else 0) + OpenCount(trace[1..])
  }

  lemma InitSatisfiesInv(p: Policy, shouldRun: bool)
    ensures Inv(p, Init(shouldRun))
  {
  }

  lemma OpenPreservesInv(p: Policy, w: World, h: nat, parse: string -> Decoded)
    requires Inv(p, w) && Enabled(w, OnOpen(h))
    ensures Inv(p, Step(p, w, OnOpen(h), parse).world)
  {
    var w' := Step(p, w, OnOpen(h), parse).world;
    assert h == |w.phases| - 1;
    assert w.reconnectTimers == 0 && w.subscribeTimers == 0;
    assert Current(w') == Open;
  }

  lemma ClosePreservesInv(p: Policy, w: World, h: nat, code: int, parse: string -> Decoded)
    requires Inv(p, w) && Enabled(w, OnClose(h, code))
    ensures Inv(p, Step(p, w, OnClose(h, code), parse).world)
  {
    var w' := Step(p, w, OnClose(h, code), parse).world;
    assert h == |w.phases| - 1;
    assert w.reconnectTimers == 0;
    assert Current(w') == Closed;
    assert forall i :: 0 <= i < |w'.phases| - 1 ==> w'.phases[i] == w.phases[i];
  }

  lemma ReconnectPreservesInv(p: Policy, w: World, parse: string -> Decoded)
    requires Inv(p, w) && Enabled(w, ReconnectTimer)
    ensures Inv(p, Step(p, w, ReconnectTimer, parse).world)
  {
    var w' := Step(p, w, ReconnectTimer, parse).world;
    assert HasCurrent(w) && Current(w) == Closed;
    assert forall i :: 0 <= i < |w.phases| ==> w.phases[i] == Closed;
    assert forall i :: 0 <= i < |w.phases| ==> w'.phases[i] == Closed;
    assert Current(w') == Connecting;
  }

  /** Every enabled signal keeps the invariant. */
  lemma StepPreservesInv(p: Policy, w: World, sig: Signal, parse: string -> Decoded)
    requires Inv(p, w) && Enabled(w, sig)
    ensures Inv(p, Step(p, w, sig, parse).world)
  {
    match sig
    case Connect =>
      assert |Step(p, w, sig, parse).world.phases| == 1;
    case OnOpen(h) => OpenPreservesInv(p, w, h, parse);
    case OnMessage(_, _) =>
    case OnError(_) =>
    case OnClose(h, code) => ClosePreservesInv(p, w, h, code, parse);
    case ReconnectTimer => ReconnectPreservesInv(p, w, parse);
    case SubscribeTimer =>
  }

  lemma {:induction false} RunPreservesInv(p: Policy, w: World, trace: seq<Signal>, parse: string -> Decoded)
    requires Inv(p, w) && Valid(p, w, trace, parse)
    ensures Inv(p, Run(p, w, trace, parse).world)
    decreases |trace|
  {
    if trace != [] {
      StepPreservesInv(p, w, trace[0], parse);
      RunPreservesInv(p, Step(p, w, trace[0], parse).world, trace[1..], parse);
    }
  }

  /** The client never writes `shouldRun`. */
  lemma {:induction false} RunKeepsShouldRun(p: Policy, w: World, trace: seq<Signal>, parse: string -> Decoded)
    ensures Run(p, w, trace, parse).world.client.shouldRun == w.client.shouldRun
    decreases |trace|
  {
    if trace != [] {
      RunKeepsShouldRun(p, Step(p, w, trace[0], parse).world, trace[1..], parse);
    }
  }

  /** Under either policy, after any run from the initial state: at most one
      reconnect timer is pending (timers never stack), at most one
      subscription timer is pending, and only `this.ws` can be live. */
  lemma ReachableWorldFacts(p: Policy, shouldRun: bool, trace: seq<Signal>, parse: string -> Decoded)
    requires Valid(p, Init(shouldRun), trace, parse)
    ensures Run(p, Init(shouldRun), trace, parse).world.reconnectTimers <= 1
    ensures Run(p, Init(shouldRun), trace, parse).world.subscribeTimers <= 1
    ensures var w := Run(p, Init(shouldRun), trace, parse).world;
            forall i :: 0 <= i < |w.phases| && Live(w.phases[i]) ==> w.client.ws == Socket(i)
  {
    InitSatisfiesInv(p, shouldRun);
    RunPreservesInv(p, Init(shouldRun), trace, parse);
  }

  /** Messages arrive only on `this.ws`, so the pong, which the listener
      writes to `this.ws`, goes back on the socket that was pinged. */
  lemma MessagesArriveOnCurrentSocket(p: Policy, w: World, h: nat, text: string)
    requires Inv(p, w) && Enabled(w, OnMessage(h, text))
    ensures w.client.ws == Socket(h) && Current(w) == Open
  {
  }

  /** When the subscription timer fires, `this.ws` is the socket whose open
      armed it (open, or closed since): never a socket still connecting. */
  lemma SubscriptionGoesToOpenedSocket(p: Policy, w: World)
    requires Inv(p, w) && Enabled(w, SubscribeTimer)
    ensures HasCurrent(w) && (Current(w) == Open || Current(w) == Closed)
  {
  }

  /** The frames one signal sends: one pong for the message "2", one
      subscription frame for the subscription timer, nothing otherwise. */
  lemma StepSent(p: Policy, w: World, sig: Signal, parse: string -> Decoded)
    ensures Sent(Step(p, w, sig, parse).effects) ==
              if sig.OnMessage? && sig.text == "2" then [PongFrame]
              else if sig.SubscribeTimer? then [SubscribeFrame]
              else []
  {
    match sig
    case OnClose(h, code) =>
      var scheduled := ScheduleReconnect(w.(phases := SetPhase(w.phases, h, Closed)));
      SentAppend([Log(Warn, ConnectionClosed(code))], scheduled.effects);
    case _ =>
  }

  /** Over any run, the number of pongs sent equals the number of pings received. */
  lemma {:induction false} RunPongs(p: Policy, w: World, trace: seq<Signal>, parse: string -> Decoded)
    ensures Count(Sent(Run(p, w, trace, parse).effects), PongFrame) == PingCount(trace)
    decreases |trace|
  {
    if trace != [] {
      var first := Step(p, w, trace[0], parse);
      var rest := Run(p, first.world, trace[1..], parse);
      RunPongs(p, first.world, trace[1..], parse);
      StepSent(p, w, trace[0], parse);
      SentAppend(first.effects, rest.effects);
      CountAppend(Sent(first.effects), Sent(rest.effects), PongFrame);
    }
  }

  /** One enabled signal: the subscription frames it sends plus the change in
      pending subscription timers is one for an open and zero otherwise. */
  lemma StepSubscriptions(p: Policy, w: World, sig: Signal, parse: string -> Decoded)
    requires Enabled(w, sig)
    ensures var r := Step(p, w, sig, parse);
            Count(Sent(r.effects), SubscribeFrame) + r.world.subscribeTimers
            == w.subscribeTimers + (if sig.OnOpen? then 1 else 0)
  {
    StepSent(p, w, sig, parse);
    assert PongFrame != SubscribeFrame;
  }

  /** Over any valid run, every open arms one subscription timer and every
      firing sends the subscription frame once: frames sent plus timers still
      pending equals timers pending at the start plus opens. */
  lemma {:induction false} RunSubscriptions(p: Policy, w: World, trace: seq<Signal>, parse: string -> Decoded)
    requires Valid(p, w, trace, parse)
    ensures Count(Sent(Run(p, w, trace, parse).effects), SubscribeFrame) + Run(p, w, trace, parse).world.subscribeTimers
            == w.subscribeTimers + OpenCount(trace)
    decreases |trace|
  {
    if trace != [] {
      var first := Step(p, w, trace[0], parse);
      var rest := Run(p, first.world, trace[1..], parse);
      assert Run(p, w, trace, parse) == Reaction(rest.world, first.effects + rest.effects);
      RunSubscriptions(p, first.world, trace[1..], parse);
      StepSubscriptions(p, w, trace[0], parse);
      SentAppend(first.effects, rest.effects);
      CountAppend(Sent(first.effects), Sent(rest.effects), SubscribeFrame);
    }
  }

  /** As written, only an open clears the guard. */
  lemma GuardClearedOnlyByOpen(w: World, sig: Signal, parse: string -> Decoded)
    requires w.client.isReconnecting && !sig.OnOpen?
    ensures Step(AsWritten, w, sig, parse).world.client.isReconnecting
  {
  }

  /** As written, one signal other than an open arms at most one reconnect
      timer, only when the guard was clear, and leaves the guard set if it
      arms one or if it was set before. */
  lemma StepArmsGuarded(w: World, sig: Signal, parse: string -> Decoded)
    requires !sig.OnOpen?
    ensures var r := Step(AsWritten, w, sig, parse);
            && Count(r.effects, ArmReconnectTimer) <= 1
            && (Count(r.effects, ArmReconnectTimer) == 1 ==> !w.client.isReconnecting && r.world.client.isReconnecting)
            && (w.client.isReconnecting ==> r.world.client.isReconnecting)
  {
    var r := Step(AsWritten, w, sig, parse);
    match sig
    case OnClose(h, code) =>
      CloseArmsGuarded(w, h, code, parse);
    case OnMessage(_, text) =>
      assert ArmReconnectTimer !in r.effects;
    case OnOpen(_) =>
    case Connect =>
      assert ArmReconnectTimer !in r.effects;
    case OnError(_) =>
      assert ArmReconnectTimer !in r.effects;
    case ReconnectTimer =>
      assert ArmReconnectTimer !in r.effects;
    case SubscribeTimer =>
      assert ArmReconnectTimer !in r.effects;
  }

  /** The close case of `StepArmsGuarded`. */
  lemma CloseArmsGuarded(w: World, h: nat, code: int, parse: string -> Decoded)
    ensures var r := Step(AsWritten, w, OnClose(h, code), parse);
            && Count(r.effects, ArmReconnectTimer) <= 1
            && (Count(r.effects, ArmReconnectTimer) == 1 ==> !w.client.isReconnecting && r.world.client.isReconnecting)
  {
    var scheduled := ScheduleReconnect(w.(phases := SetPhase(w.phases, h, Closed)));
    CountAppend([Log(Warn, ConnectionClosed(code))], scheduled.effects, ArmReconnectTimer);
    if w.client.shouldRun && !w.client.isReconnecting {
      assert scheduled.effects == [Log(Info, ReconnectingIn(ReconnectDelayMs / 1000)), ArmReconnectTimer];
    }
  }

  /** As written, any run without an open arms at most one reconnect timer,
      and none at all if the guard was already set: closes and errors,
      however many, cannot stack reconnect attempts. */
  lemma {:induction false} NoStackingWithoutOpen(w: World, trace: seq<Signal>, parse: string -> Decoded)
    requires forall i :: 0 <= i < |trace| ==> !trace[i].OnOpen?
    ensures Count(Run(AsWritten, w, trace, parse).effects, ArmReconnectTimer)
            <= if w.client.isReconnecting then 0 else 1
    decreases |trace|
  {
    if trace != [] {
      var first := Step(AsWritten, w, trace[0], parse);
      var rest := Run(AsWritten, first.world, trace[1..], parse);
      assert Run(AsWritten, w, trace, parse) == Reaction(rest.world, first.effects + rest.effects);
      assert forall i :: 0 <= i < |trace[1..]| ==> !trace[1..][i].OnOpen? by {
        forall i | 0 <= i < |trace[1..]| ensures !trace[1..][i].OnOpen? {
          assert trace[1..][i] == trace[i + 1];
        }
      }
      NoStackingWithoutOpen(first.world, trace[1..], parse);
      StepArmsGuarded(w, trace[0], parse);
      CountAppend(first.effects, rest.effects, ArmReconnectTimer);
    }
  }

  /** The error listener and the message listener arm no timer (that they
      change no state is part of `Step`'s contract); only the close listener
      schedules reconnects. */
  lemma ListenersWithoutStateChange(p: Policy, w: World, h: nat, text: string, parse: string -> Decoded)
    ensures ArmReconnectTimer !in Step(p, w, OnError(h), parse).effects
    ensures ArmReconnectTimer !in Step(p, w, OnMessage(h, text), parse).effects
    ensures ArmSubscribeTimer !in Step(p, w, OnMessage(h, text), parse).effects
  {
  }

  /** A world with a socket, every socket closed and no timer pending admits
      no signal at all. */
  lemma AllClosedWithoutTimersIsStalled(w: World)
    requires w.client.ws.Socket? && w.reconnectTimers == 0 && w.subscribeTimers == 0
    requires forall i :: 0 <= i < |w.phases| ==> w.phases[i] == Closed
    ensures Stalled(w)
  {
    forall sig
      ensures !Enabled(w, sig)
    {
    }
  }

  /** Connect; the socket closes before opening; the reconnect timer fires;
      the new socket closes before opening too. */
  const FailedReconnect: seq<Signal> := [Connect, OnClose(0, 1006), ReconnectTimer, OnClose(1, 1006)]

  /** The four steps of a failed reconnect, as written: connect, the first
      socket closes, the reconnect timer fires, the new socket closes. */
  lemma FirstConnect(parse: string -> Decoded)
    ensures Step(AsWritten, Init(true), Connect, parse).world
            == World(Client(Socket(0), true, false), [Connecting], 0, 0)
  {
    assert DoConnect(Init(true)).world.phases == [Connecting];
  }

  lemma FirstClose(parse: string -> Decoded)
    ensures Step(AsWritten, World(Client(Socket(0), true, false), [Connecting], 0, 0), OnClose(0, 1006), parse).world
            == World(Client(Socket(0), true, true), [Closed], 1, 0)
  {
    assert SetPhase([Connecting], 0, Closed) == [Closed];
  }

  lemma ReconnectFires(parse: string -> Decoded)
    ensures Step(AsWritten, World(Client(Socket(0), true, true), [Closed], 1, 0), ReconnectTimer, parse).world
            == World(Client(Socket(1), true, true), [Closed, Connecting], 0, 0)
  {
    var w2 := World(Client(Socket(0), true, true), [Closed], 1, 0);
    assert DoConnect(w2.(reconnectTimers := 0)).world.phases == [Closed, Connecting];
  }

  lemma SecondClose(parse: string -> Decoded)
    ensures Step(AsWritten, World(Client(Socket(1), true, true), [Closed, Connecting], 0, 0), OnClose(1, 1006), parse).world
            == World(Client(Socket(1), true, true), [Closed, Closed], 0, 0)
  {
    assert SetPhase([Closed, Connecting], 1, Closed) == [Closed, Closed];
  }

  /** As written, the client stops for good after one failed reconnect: the
      first socket closes, the reconnect timer fires and creates a second
      socket, that socket closes without ever opening, and since the guard is
      still set nothing is scheduled. No signal can occur any more. */
  lemma AsWrittenStallsAfterFailedReconnect(parse: string -> Decoded)
    ensures Valid(AsWritten, Init(true), FailedReconnect, parse)
    ensures var w := Run(AsWritten, Init(true), FailedReconnect, parse).world;
            !Supervised(w) && Stalled(w)
  {
    FailedReconnectRun(parse);
    FailedReconnectEnd();
  }

  /** The world the failed reconnect ends in is unsupervised and stalled. */
  lemma FailedReconnectEnd()
    ensures var w := World(Client(Socket(1), true, true), [Closed, Closed], 0, 0);
            !Supervised(w) && Stalled(w)
  {
    AllClosedWithoutTimersIsStalled(World(Client(Socket(1), true, true), [Closed, Closed], 0, 0));
  }

  /** The failed-reconnect trace is valid and ends with both sockets closed,
      the guard set and no timer pending. */
  lemma FailedReconnectRun(parse: string -> Decoded)
    ensures Valid(AsWritten, Init(true), FailedReconnect, parse)
    ensures Run(AsWritten, Init(true), FailedReconnect, parse).world == World(Client(Socket(1), true, true), [Closed, Closed], 0, 0)
  {
    FirstConnect(parse);
    var trace := FailedReconnect;
    var w1 := World(Client(Socket(0), true, false), [Connecting], 0, 0);
    var t1 := [OnClose(0, 1006), ReconnectTimer, OnClose(1, 1006)];
    assert trace[1..] == t1;
    FailedReconnectTail(parse);
    UnfoldRun(AsWritten, Init(true), trace, parse);
  }

  /** The same trace after the first connect. */
  lemma FailedReconnectTail(parse: string -> Decoded)
    ensures var w1 := World(Client(Socket(0), true, false), [Connecting], 0, 0);
            var t1 := [OnClose(0, 1006), ReconnectTimer, OnClose(1, 1006)];
            && Valid(AsWritten, w1, t1, parse)
            && Run(AsWritten, w1, t1, parse).world == World(Client(Socket(1), true, true), [Closed, Closed], 0, 0)
  {
    FirstClose(parse);
    FailedRetry(parse);
    var w1 := World(Client(Socket(0), true, false), [Connecting], 0, 0);
    var t1 := [OnClose(0, 1006), ReconnectTimer, OnClose(1, 1006)];
    assert t1[1..] == [ReconnectTimer, OnClose(1, 1006)];
    UnfoldRun(AsWritten, w1, t1, parse);
  }

  /** The same trace from the first close on: the retry socket is created
      and closes before opening. */
  lemma FailedRetry(parse: string -> Decoded)
    ensures var w2 := World(Client(Socket(0), true, true), [Closed], 1, 0);
            var t2 := [ReconnectTimer, OnClose(1, 1006)];
            && Valid(AsWritten, w2, t2, parse)
            && Run(AsWritten, w2, t2, parse).world == World(Client(Socket(1), true, true), [Closed, Closed], 0, 0)
  {
    ReconnectFires(parse);
    SecondClose(parse);
    var w2 := World(Client(Socket(0), true, true), [Closed], 1, 0);
    var w3 := World(Client(Socket(1), true, true), [Closed, Connecting], 0, 0);
    var t2 := [ReconnectTimer, OnClose(1, 1006)];
    var t3 := [OnClose(1, 1006)];
    assert t2[1..] == t3 && t3[1..] == [];
    assert Run(AsWritten, w3, t3, parse).world == World(Client(Socket(1), true, true), [Closed, Closed], 0, 0)
           && Valid(AsWritten, w3, t3, parse) by {
      UnfoldRun(AsWritten, w3, t3, parse);
    }
    UnfoldRun(AsWritten, w2, t2, parse);
  }

  /** One step of a run: the run's final world is the rest's final world
      after the first step, and the run is valid when its first signal is
      enabled and the rest is valid. */
  lemma UnfoldRun(p: Policy, w: World, trace: seq<Signal>, parse: string -> Decoded)
    requires trace != []
    ensures Run(p, w, trace, parse).world == Run(p, Step(p, w, trace[0], parse).world, trace[1..], parse).world
    ensures Valid(p, w, trace, parse) <==>
              Enabled(w, trace[0]) && Valid(p, Step(p, w, trace[0], parse).world, trace[1..], parse)
  {
  }

  /** The corrected policy keeps the supervision rule on every reachable world:
      a client that should run is always connected, connecting, or waiting
      for its reconnect timer, and it never stalls. */
  lemma CorrectedStaysSupervised(shouldRun: bool, trace: seq<Signal>, parse: string -> Decoded)
    requires Valid(ClearGuardOnFire, Init(shouldRun), trace, parse)
    ensures Supervised(Run(ClearGuardOnFire, Init(shouldRun), trace, parse).world)
    ensures shouldRun ==> !Stalled(Run(ClearGuardOnFire, Init(shouldRun), trace, parse).world)
  {
    InitSatisfiesInv(ClearGuardOnFire, shouldRun);
    RunPreservesInv(ClearGuardOnFire, Init(shouldRun), trace, parse);
    var w := Run(ClearGuardOnFire, Init(shouldRun), trace, parse).world;
    RunKeepsShouldRun(ClearGuardOnFire, Init(shouldRun), trace, parse);
    if shouldRun {
      if w.client.ws.NoSocket? {
        assert Enabled(w, Connect);
      } else if Current(w) == Connecting {
        assert Enabled(w, OnOpen(w.client.ws.handle));
      } else if Current(w) == Open {
        assert Enabled(w, OnClose(w.client.ws.handle, 1000));
      } else if w.subscribeTimers > 0 {
        assert Enabled(w, SubscribeTimer);
      } else {
        assert w.reconnectTimers == 1;
        assert Enabled(w, ReconnectTimer);
      }
    }
  }
}
