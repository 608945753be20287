# Sportpesa realtime client: a Dafny model

This project models `SportpesaClient` (client.js). The client keeps one WebSocket connection to a Socket.IO feed that uses Engine.IO protocol revision 3, and it does two things:

- **Frame handling.** Each inbound text message is classified by ordered prefix and equality tests: `0{` handshake, `1` server close, exactly `2` ping, `42` Socket.IO event. The client answers a ping with the pong `3`. It decodes a `42` frame as `[eventName, eventData]` and passes `BUFFERED_MARKET_UPDATE` events to `handleMarketUpdate`. It catches every error and ignores everything else.
- **Reconnect supervision.** Each open schedules the one subscription frame `42["subscribe","buffered-event-105395-194-0.00"]` after a short delay. Each close calls `scheduleReconnect`, which uses the `isReconnecting` guard to keep at most one reconnect timer pending. `connect()` terminates the old socket before it creates a new one.

Modules:

- `JsValues` (js_values.dfy): the JavaScript values `JSON.parse` yields. It covers property reads with their TypeError on null and undefined, truthiness, and when string conversion in a template literal throws.
- `Protocol` (protocol.dfy): the classifier `Classify`, the protocol constants, and an independent Engine.IO reference decoder `DecodeEngine`.
- `Effects` (effects.dfy): what a reaction does to the outside world. This means log lines (level plus message), socket writes, handler calls, socket creation and termination, and timers armed.
- `Session` (session.dfy): the message listener `HandleMessage` and `handleMarketUpdate`. `JSON.parse` is an oracle parameter `parse: string -> Decoded`.
- `Supervisor` (supervisor.dfy): the client state (`ws`, `shouldRun`, `isReconnecting`) plus its surroundings, which are the phase of every socket created and the pending timer tokens. A pure `Step` function handles each `Signal`: connect, open, message, error, close, reconnect timer, subscription timer. `Run` folds `Step` over a trace.
- `SupervisorProofs` (supervisor_proofs.dfy): the reachable-world invariant, counting lemmas over runs, and the reconnect-guard results.

`Step` takes a `Policy`. `AsWritten` is the client as it is. `ClearGuardOnFire` is the corrected guard described under Findings. Most lifecycle lemmas take the policy as a parameter and hold for both. The exceptions:

- `GuardClearedOnlyByOpen`, `StepArmsGuarded`, `NoStackingWithoutOpen` and `AsWrittenStallsAfterFailedReconnect` are about `AsWritten` only. So are the helpers of the last two: `CloseArmsGuarded`, `FirstConnect`, `FirstClose`, `ReconnectFires`, `SecondClose`, `FailedReconnectRun`, `FailedReconnectTail` and `FailedRetry`.
- `CorrectedStaysSupervised` is about `ClearGuardOnFire` only.

The anti-stacking result that holds under both policies is `ReachableWorldFacts`: at most one reconnect timer is ever pending.

Time is abstract: a pending timer token may fire at any later step. There is one restriction in `Enabled`: the reconnect timer fires only when no subscription timer is pending. This holds because a pending subscription timer was armed by an open that came before the close that armed the reconnect, and 500 ms is less than 5000 ms.

## Model

| member | source | states |
|---|---|---|
| Protocol.Classify | client.js:50-64 | Each outcome has a standalone characterisation: handshake iff the text starts `0{`, server close iff it starts `1`, ping iff it is exactly `2`, event iff it starts `42` (with body = the rest). Otherwise unmatched. These prefixes are disjoint, so each message takes exactly one branch. |
| Protocol.EncodeEvent | client.js:38 | A Socket.IO event frame is the characters `4`, `2` followed by exactly the body, so it is two characters longer than the body. |
| Protocol.ClassifyAgreesWithEngineIo | client.js:48-64 | The classifier agrees with the Engine.IO v3 packet types. Handshake = open packet whose data starts with `{`. Server close = any close packet. Ping = ping packet with no data. Event = message packet carrying a Socket.IO EVENT, with the same body. Pongs, upgrades, noops and other Socket.IO types are unmatched. |
| Protocol.EventRoundTrip | client.js:64-67 | Classifying an encoded event gives back its body. Every frame classified as an event is the encoding of its body. |
| Protocol.UnmatchedExamples | client.js:51-80 | `3`, `2probe`, `40`, `4` and the empty string match no branch. The client's own subscription frame would classify as an event. |
| Session.HandleMarketUpdate | client.js:103-113 | Throws on null or undefined data. The reported market id is `data.eventMarketId`. The selection count is the array length of `data.selections`, or 0 when selections are absent or falsy. A report never carries a value whose string conversion throws. |
| Session.HandleEvent | client.js:64-80 | A `42` body never sends anything and only logs or calls the handler. A JSON syntax error gives exactly one ERROR log with the raw message. The handler is called at most once, exactly when element 0 is the market-update event name, and with element 1. |
| Session.HandleMessage | client.js:44-81 | Frames sent = one pong `3` if the text is exactly `2`, otherwise none. The handler is called at most once, and with `d` exactly when the text is a `42` frame whose decoded element 0 is `BUFFERED_MARKET_UPDATE` and element 1 is `d`. An unmatched text has no effect. No timer or socket effect. |
| Session.EventFailuresAreCaught | client.js:65-79 | A decode failure or a null payload yields only an ERROR log of the raw message. A market update whose handler throws (e.g. missing element 1) yields the handler call and then that ERROR log. |
| Session.OtherEventsOnlyLog | client.js:69-76 | Any other element 0, including undefined for payloads that are neither arrays nor strings, calls no handler and yields only a DEBUG log of the name (when the name can be converted to a string). |
| Session.MarketUpdatesAreReported | client.js:72-73 | For every market update whose handler returns normally, the message has exactly two effects. The handler is called once with element 1. Then the report of line 109 is logged at INFO with the market id and selection count the handler read. |
| Session.MarketUpdateExample | client.js:68-73 | A market update with id `M1` and one selection yields one handler call with element 1 and an INFO report of `M1` with count 1. |
| Supervisor.ScheduleReconnect | client.js:93-101 | When `shouldRun && !isReconnecting`: sets the guard and arms exactly one reconnect timer. Otherwise: changes nothing and emits nothing. It never sends. |
| Supervisor.DoConnect | client.js:18-30 | The new socket gets a fresh handle, is connecting, and becomes `this.ws`. The old socket is terminated first (first effect) and is no longer live. Creation is the last effect. If the old socket was the only live one, the new one is the only live one afterwards. Guard, `shouldRun` and timers are unchanged. |
| Supervisor.Step | client.js:32-99 | What one signal does. The error and message listeners leave the world unchanged. An open clears the guard and arms one more subscription timer. A close arms at most one reconnect timer, and only when the guard was clear and the client should run; it then sets the guard. As written, the guard stays set through every signal except an open. Exactly the entry point's connect and the reconnect timer create a socket. Only the subscription timer sends the subscription frame. No signal changes `shouldRun`. |
| SupervisorProofs.InitSatisfiesInv | client.js:10-16 | The freshly constructed client satisfies the reachable-world invariant. |
| SupervisorProofs.OpenPreservesInv | client.js:32-42 | An open keeps the invariant: it opens `this.ws`, clears the guard, and arms the only subscription timer. |
| SupervisorProofs.ClosePreservesInv | client.js:87-90 | A close keeps the invariant: only `this.ws` can close, and at most one reconnect timer becomes pending. |
| SupervisorProofs.ReconnectPreservesInv | client.js:97-99 | The reconnect timer keeps the invariant: it replaces a closed socket with one new connecting socket. |
| SupervisorProofs.StepPreservesInv | client.js:18-101 | Every enabled signal keeps the invariant: `this.ws` is the latest socket, older sockets are closed, at most one reconnect and one subscription timer are pending, and a pending reconnect implies the guard is set. |
| SupervisorProofs.RunPreservesInv | client.js:18-101 | Every valid run from an invariant world keeps the invariant. |
| SupervisorProofs.RunKeepsShouldRun | client.js:13 | No run changes `shouldRun`; it is an input. |
| SupervisorProofs.ReachableWorldFacts | client.js:19-34 | After any valid run from construction: at most one pending reconnect timer, at most one pending subscription timer, and `this.ws` is the only socket that can be live. |
| SupervisorProofs.MessagesArriveOnCurrentSocket | client.js:59-61 | A message can arrive only on `this.ws` while it is open, so the pong goes back on the pinged socket. |
| SupervisorProofs.SubscriptionGoesToOpenedSocket | client.js:37-41 | When the subscription timer fires, `this.ws` has opened (it is open or closed since), never still connecting. |
| SupervisorProofs.StepSent | client.js:32-62 | One signal sends one pong for the message `2`, one subscription frame for the subscription timer, and nothing otherwise. |
| SupervisorProofs.RunPongs | client.js:59-62 | Over any run, pongs sent = pings received. |
| SupervisorProofs.StepSubscriptions | client.js:32-41 | For one signal, subscription frames sent plus the change in pending subscription timers is 1 for an open and 0 otherwise. |
| SupervisorProofs.RunSubscriptions | client.js:32-41 | Over any valid run, subscription frames sent + subscription timers pending = initial timers + number of opens. |
| SupervisorProofs.GuardClearedOnlyByOpen | client.js:34 | As written, only an open clears `isReconnecting`. |
| SupervisorProofs.StepArmsGuarded | client.js:93-101 | As written, one signal other than an open arms at most one reconnect timer, and only when the guard was clear. It leaves the guard set. |
| SupervisorProofs.NoStackingWithoutOpen | client.js:87-101 | As written, any run without an open arms at most one reconnect timer, and none if the guard was already set, however many closes and errors occur. |
| SupervisorProofs.ListenersWithoutStateChange | client.js:83-85 | The error and message listeners arm no timer. That they change no state is part of `Supervisor.Step`'s contract. |
| SupervisorProofs.AllClosedWithoutTimersIsStalled | client.js:87-101 | A world with a socket, all sockets closed and no timer pending admits no further signal. |
| SupervisorProofs.AsWrittenStallsAfterFailedReconnect | client.js:93-95 | As written, the trace `FailedReconnect` is valid from construction. It connects, closes the first socket, fires the reconnect timer, and closes the new socket before it opens. It ends disconnected with no reconnect pending, and no signal can occur any more. |
| SupervisorProofs.CorrectedStaysSupervised | client.js:93-99 | With the guard also cleared when the reconnect timer fires, every reachable world of a client that should run is connected, connecting or waiting for a reconnect, and never stalls. |

## Findings

| source | as written | input that shows it | evidently intended | confidence | as-written member | corrected member |
|---|---|---|---|---|---|---|
| client.js:34 | `isReconnecting` is cleared only in the open listener. A reconnect attempt whose socket closes without opening leaves the guard set, so `scheduleReconnect` (line 94) does nothing and the client stays disconnected for good. | Signals: connect, close of socket 0, reconnect timer fires, close of socket 1 (e.g. the server is unreachable during the reconnect) | Keep retrying after every close while `shouldRun` holds, arming at most one timer at a time. Clearing the guard when the reconnect timer fires does both. | high; not executed | SupervisorProofs.AsWrittenStallsAfterFailedReconnect | SupervisorProofs.CorrectedStaysSupervised |

## Left out

- The `ws` library, real sockets, the URL and the headers (client.js:1, 11, 23-30) are foreign I/O. A socket is a handle plus a phase. A pong goes only to the open socket that was pinged (`MessagesArriveOnCurrentSocket`). A subscription frame never goes to a socket that is still connecting (`SubscriptionGoesToOpenedSocket`). A socket that opens and then closes before its subscription timer fires still receives the write, now closed. What `send` does on a closed socket belongs to that library and is not modelled.
- `setTimeout` delays as real time (client.js:37-41, 97-99). Timers are pending tokens. Their one ordering consequence is stated in `Enabled`.
- `JSON.parse` internals (client.js:68). Decoding is an oracle that returns a value or a syntax error. JSON numbers are reals; `NaN` and `-0` never need separating, since both are falsy and `JSON.parse` never yields `NaN`.
- `Buffer` to string conversion (client.js:46). Messages arrive as strings.
- Log formatting and timestamps (client.js:4-7). A log line is a level plus a structured message; the text of `e.message` and `error.message` is not modelled.
- The `require.main` entry point (client.js:117-120). It is the one `Connect` signal, which is enabled only before any socket exists. Other external calls of `connect()` are not modelled; a second external call would let reconnect timers stack.
- A keepalive sender, a `stop()` method, pong handling and multiple subscriptions do not exist in client.js, so they are not modelled. `shouldRun` is never written and is an input.
- The handshake branch tests only the prefix `0{` (client.js:51); it does not check that a JSON object follows. The model follows the code.
- Property reads consult own properties and `length` only. None of the keys the client reads is found on a built-in prototype.
- Property keys are assumed canonical. An array index key and an object key that looks like one (`"0"`) are different `Key`s, so the `parse` oracle must give an object's index-like keys as `Index`, as JavaScript's property lookup would treat them. No well-formedness predicate enforces this.
- String length and indexing count Unicode scalar values (Dafny `char`), not the UTF-16 code units of JavaScript. They differ for characters outside the Basic Multilingual Plane. Two reads can see such strings from the server. `payload[0]` of a payload that is a JSON string (client.js:69) gives the whole character, not a lone surrogate. `odds.length` of a `selections` string (client.js:109) counts characters, not code units. Both change only log text, and the count for a string `selections` is one the contract leaves open.
- Session.HandleMarketUpdate: the count for truthy `selections` that are neither arrays nor falsy (a string, an object with its own `length`) is left unconstrained by the contract. The function still computes the `length` read for them.
