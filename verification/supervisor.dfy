/**
  The client's connection lifecycle: `connect()`, the socket's open, message,
  error and close listeners, `scheduleReconnect()` and the two timers (the
  subscription send after an open and the reconnect after a close). The
  client's own fields are `ws`, `shouldRun` and `isReconnecting`; the world
  around it records the phase of every socket created so far and the timers
  that are pending. Timers are tokens: a pending token may fire at any later
  step, subject to the one ordering fact the two fixed delays guarantee (see
  `Enabled`).

  `Step` is parameterised by a `Policy`. `AsWritten` clears `isReconnecting`
  only when a socket opens, as the client does; `ClearGuardOnFire` also
  clears it when the reconnect timer fires, which is what the guard is for:
  with `AsWritten` a reconnect attempt that closes without ever opening
  schedules nothing, and the client stays disconnected for good
  (`AsWrittenStallsAfterFailedReconnect`).
 */
module Supervisor {
  import opened Protocol
  import opened Effects
  import opened Session

  /** Where a socket is in its life, as the socket library reports it. */
  datatype Phase = Connecting | Open | Closing | Closed

  /** `this.ws`: no socket yet, or the handle of the latest socket created. */
  datatype Socket = NoSocket | Socket(handle: nat)

  /** The client object's mutable fields. `shouldRun` is never written by the
      client; it is an input. */
  datatype Client = Client(ws: Socket, shouldRun: bool, isReconnecting: bool)

  /** The client with its surroundings. Socket handles index `phases`. */
  datatype World = World(client: Client, phases: seq<Phase>, reconnectTimers: nat, subscribeTimers: nat)

  datatype Policy = AsWritten | ClearGuardOnFire

  /** Everything that can make the client run code. */
  datatype Signal =
    | Connect                        // the entry point's call of connect()
    | OnOpen(h: nat)
    | OnMessage(h: nat, text: string)
    | OnError(h: nat)
    | OnClose(h: nat, code: int)
    | ReconnectTimer
    | SubscribeTimer

  datatype Reaction = Reaction(world: World, effects: seq<Effect>)

  /** The state right after the constructor. */
  function Init(shouldRun: bool): World {
    World(Client(NoSocket, shouldRun, false), [], 0, 0)
  }

  predicate Live(ph: Phase) {
    ph == Connecting || ph == Open
  }

  function SetPhase(phases: seq<Phase>, h: nat, ph: Phase): seq<Phase> {
    if h < |phases| then phases[h := ph] else phases
  }

  /** `ws.terminate()`: a live socket starts closing; otherwise nothing happens. */
  function Terminated(phases: seq<Phase>, h: nat): seq<Phase> {
    if h < |phases| && Live(phases[h]) then phases[h := Closing] else phases
  }

  /** `scheduleReconnect()`: when the client should run and no reconnect is
      already scheduled, set the guard and arm exactly one reconnect timer;
      otherwise do nothing at all. */
  function ScheduleReconnect(w: World): (r: Reaction)
    ensures !w.client.shouldRun || w.client.isReconnecting ==> r == Reaction(w, [])
    ensures w.client.shouldRun && !w.client.isReconnecting ==>
              && r.world == w.(client := w.client.(isReconnecting := true), reconnectTimers := w.reconnectTimers + 1)
              && ArmReconnectTimer in r.effects
    ensures Sent(r.effects) == []
  {
    if w.client.shouldRun && !w.client.isReconnecting then
      Reaction(w.(client := w.client.(isReconnecting := true), reconnectTimers := w.reconnectTimers + 1),
               [Log(Info, ReconnectingIn(ReconnectDelayMs / 1000)), ArmReconnectTimer])
    else
      Reaction(w, [])
  }

  /** `connect()`: terminate the current socket, if any, then create a new
      one, which becomes `this.ws`. If the current socket was the only live
      one, the new socket is the only live one afterwards. */
  function DoConnect(w: World): (r: Reaction)
    ensures r.world.client.ws == Socket(|w.phases|)
    ensures |r.world.phases| == |w.phases| + 1 && r.world.phases[|w.phases|] == Connecting
    ensures w.client.ws.Socket? && w.client.ws.handle < |w.phases| ==> !Live(r.world.phases[w.client.ws.handle])
    ensures |r.effects| >= 2 && r.effects[|r.effects| - 1] == Create(|w.phases|)
    ensures w.client.ws.Socket? ==> r.effects[0] == Terminate(w.client.ws.handle)
    ensures (forall i :: 0 <= i < |w.phases| && Live(w.phases[i]) ==> w.client.ws == Socket(i)) ==>
              (forall i :: 0 <= i < |r.world.phases| && Live(r.world.phases[i]) ==> i == |w.phases|)
    ensures Sent(r.effects) == []
    ensures r.world.client.shouldRun == w.client.shouldRun && r.world.client.isReconnecting == w.client.isReconnecting
    ensures r.world.reconnectTimers == w.reconnectTimers && r.world.subscribeTimers == w.subscribeTimers
  {
    var before :=
      (match w.client.ws
       case NoSocket => Reaction(w, [])
       case Socket(h) => Reaction(w.(phases := Terminated(w.phases, h)), [Terminate(h)]));
    var created := |before.world.phases|;
    var effs := before.effects + [Log(Info, ConnectingToFeed), Create(created)];
    SentAppend(before.effects, [Log(Info, ConnectingToFeed), Create(created)]);
    Reaction(before.world.(client := before.world.client.(ws := Socket(created)),
                           phases := before.world.phases + [Connecting]),
             effs)
  }

  /** The client's reaction to one signal. The error and message listeners
      leave every field alone; an open clears the guard and arms exactly one
      subscription timer; a close arms at most one reconnect timer, and only
      with the guard clear; only the reconnect timer and the entry point
      create sockets, only the subscription timer sends the subscription
      frame; `shouldRun` is never written. */
  function Step(p: Policy, w: World, sig: Signal, parse: string -> Decoded): (r: Reaction)
    ensures sig.OnError? || sig.OnMessage? ==> r.world == w
    ensures sig.OnOpen? ==> !r.world.client.isReconnecting && r.world.subscribeTimers == w.subscribeTimers + 1
    ensures sig.OnClose? ==> r.world.reconnectTimers <= w.reconnectTimers + 1
    ensures sig.OnClose? && r.world.reconnectTimers > w.reconnectTimers ==>
              !w.client.isReconnecting && w.client.shouldRun && r.world.client.isReconnecting
    ensures p == AsWritten && w.client.isReconnecting && !sig.OnOpen? ==> r.world.client.isReconnecting
    ensures sig.Connect? || sig.ReconnectTimer? <==> |r.world.phases| == |w.phases| + 1
    ensures r.world.client.shouldRun == w.client.shouldRun
    ensures Send(SubscribeFrame) in r.effects <==> sig.SubscribeTimer?
  {
    match sig
    case Connect => DoConnect(w)
    case OnOpen(h) =>
      Reaction(w.(client := w.client.(isReconnecting := false),
                  phases := SetPhase(w.phases, h, Open),
                  subscribeTimers := w.subscribeTimers + 1),
               [Log(Info, ConnectionOpened), ArmSubscribeTimer])
    case OnMessage(_, text) => Reaction(w, HandleMessage(text, parse))
    case OnError(_) => Reaction(w, [Log(Error, SocketError)])
    case OnClose(h, code) =>
      var scheduled := ScheduleReconnect(w.(phases := SetPhase(w.phases, h, Closed)));
      Reaction(scheduled.world, [Log(Warn, ConnectionClosed(code))] + scheduled.effects)
    case ReconnectTimer =>
      var fired := w.(reconnectTimers := if w.reconnectTimers > 0 then w.reconnectTimers - 1 else 0,
                      client := if p == ClearGuardOnFire then w.client.(isReconnecting := false) else w.client);
      DoConnect(fired)
    case SubscribeTimer =>
      Reaction(w.(subscribeTimers := if w.subscribeTimers > 0 then w.subscribeTimers - 1 else 0),
               [Send(SubscribeFrame), Log(Info, SubscriptionSent(SubscribeFrame))])
  }

  /** Which signals can occur. The entry point calls `connect()` once, before
      any socket exists. A socket opens only while connecting, delivers
      messages only while open, and reports error and close until it is
      closed. A reconnect timer fires only once no subscription timer is
      pending: a pending subscription timer was armed by an open that came
      before the close that armed the reconnect timer, and its delay (500 ms)
      is shorter than the reconnect delay (5000 ms). */
  predicate Enabled(w: World, sig: Signal) {
    match sig
    case Connect => w.client.ws.NoSocket?
    case OnOpen(h) => h < |w.phases| && w.phases[h] == Connecting
    case OnMessage(h, _) => h < |w.phases| && w.phases[h] == Open
    case OnError(h) => h < |w.phases| && w.phases[h] != Closed
    case OnClose(h, _) => h < |w.phases| && w.phases[h] != Closed
    case ReconnectTimer => w.reconnectTimers > 0 && w.subscribeTimers == 0
    case SubscribeTimer => w.subscribeTimers > 0
  }

  /** The reactions to a sequence of signals, effects concatenated in order. */
  function Run(p: Policy, w: World, trace: seq<Signal>, parse: string -> Decoded): Reaction
    decreases |trace|
  {
    if trace == [] then Reaction(w, [])
    else
      var first := Step(p, w, trace[0], parse);
      var rest := Run(p, first.world, trace[1..], parse);
      Reaction(rest.world, first.effects + rest.effects)
  }

  /** Every signal of the trace is enabled when it occurs. */
  predicate Valid(p: Policy, w: World, trace: seq<Signal>, parse: string -> Decoded)
    decreases |trace|
  {
    trace == [] || (Enabled(w, trace[0]) && Valid(p, Step(p, w, trace[0], parse).world, trace[1..], parse))
  }
}
