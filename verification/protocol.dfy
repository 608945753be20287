/**
  The text frames of the realtime feed: Engine.IO protocol revision 3 packets
  (a one-digit packet type followed by data), with Socket.IO packets inside
  Engine.IO "message" packets. The client recognises four frame shapes by
  prefix and equality tests, in a fixed order, and ignores everything else.
 */
module Protocol {

  /** The client's classification of one inbound text message. */
  datatype Frame =
    | Handshake          // "0{...": Engine.IO open packet carrying the handshake object
    | ServerClose        // "1...": Engine.IO close packet
    | Ping               // exactly "2": Engine.IO ping without payload
    | Event(body: string) // "42" + body: Socket.IO EVENT inside an Engine.IO message
    | Unmatched          // anything else; the client does nothing with it

  /** The answer to a server ping: an Engine.IO pong packet. */
  const PongFrame: string := "3"

  /** The JSON array sent after every open, naming the one topic subscribed to. */
  const SubscribeBody: string := "[\"subscribe\",\"buffered-event-105395-194-0.00\"]"

  /** The one event name that reaches the market-update handler. */
  const MarketUpdateEvent: string := "BUFFERED_MARKET_UPDATE"

  /** Delay between a close and the next connection attempt. */
  const ReconnectDelayMs: nat := 5000

  predicate StartsWith(s: string, prefix: string) {
    |prefix| <= |s| && s[..|prefix|] == prefix
  }

  /** A Socket.IO EVENT packet inside an Engine.IO message packet. */
  function EncodeEvent(body: string): (s: string)
    ensures |s| == |body| + 2 && s[0] == '4' && s[1] == '2'
    ensures s[2..] == body
  {
    "42" + body
  }

  /** The subscription frame `42["subscribe","buffered-event-105395-194-0.00"]`. */
  const SubscribeFrame: string := EncodeEvent(SubscribeBody)

  /** The ordered tests of the message handler. Each outcome is characterised
      on its own, without the earlier tests: the four recognised shapes have
      disjoint prefixes, so the order of the tests never decides anything. */
  function Classify(s: string): (f: Frame)
    ensures f == Handshake <==> |s| >= 2 && s[0] == '0' && s[1] == '{'
    ensures f == ServerClose <==> |s| >= 1 && s[0] == '1'
    ensures f == Ping <==> |s| == 1 && s[0] == '2'
    ensures f.Event? <==> |s| >= 2 && s[0] == '4' && s[1] == '2'
    ensures f.Event? ==> f.body == s[2..]
  {
    if StartsWith(s, "0{") then Handshake
    else if StartsWith(s, "1") then ServerClose
    else if s == "2" then Ping
    else if StartsWith(s, "42") then Event(s[2..])
    else Unmatched
  }

  /** An Engine.IO revision 3 packet: the packet type is the first character
      ('0' open, '1' close, '2' ping, '3' pong, '4' message, '5' upgrade,
      '6' noop) and the rest of the text is the packet data. */
  datatype EnginePacket =
    | EOpen(data: string)
    | EClose(data: string)
    | EPing(data: string)
    | EPong(data: string)
    | EMessage(data: string)
    | EUpgrade(data: string)
    | ENoop(data: string)
    | EInvalid

  /** Reference decoder for Engine.IO text packets, independent of `Classify`. */
  function DecodeEngine(s: string): EnginePacket {
    if |s| == 0 then EInvalid
    else
      var data := s[1..];
      match s[0]
      case '0' => EOpen(data)
      case '1' => EClose(data)
      case '2' => EPing(data)
      case '3' => EPong(data)
      case '4' => EMessage(data)
      case '5' => EUpgrade(data)
      case '6' => ENoop(data)
      case _ => EInvalid
  }

  /** Socket.IO packet type EVENT, the first character of a message's data. */
  const SocketIoEvent: char := '2'

  /** The classifier against the Engine.IO reference decoder: a handshake is
      an open packet whose data starts with `{`, a server close is any close
      packet, a ping is a ping packet without data, an event is a message
      packet carrying a Socket.IO EVENT; pongs, upgrades, noops, other
      Socket.IO packet types and malformed text are all unmatched. */
  lemma ClassifyAgreesWithEngineIo(s: string)
    ensures Classify(s) == Handshake <==>
              DecodeEngine(s).EOpen? && |DecodeEngine(s).data| >= 1 && DecodeEngine(s).data[0] == '{'
    ensures Classify(s) == ServerClose <==> DecodeEngine(s).EClose?
    ensures Classify(s) == Ping <==> DecodeEngine(s) == EPing("")
    ensures Classify(s).Event? <==>
              DecodeEngine(s).EMessage? && |DecodeEngine(s).data| >= 1 && DecodeEngine(s).data[0] == SocketIoEvent
    ensures Classify(s).Event? ==> Classify(s).body == DecodeEngine(s).data[1..]
  {
    if |s| >= 1 && DecodeEngine(s) != EInvalid {
      assert DecodeEngine(s).data == s[1..];
    }
  }

  /** Encoding an event and classifying it are inverse: every "42" frame is
      the encoding of its body, and every encoded body is recognised as an
      event (no earlier test can capture it). */
  lemma EventRoundTrip(body: string, s: string)
    ensures Classify(EncodeEvent(body)) == Event(body)
    ensures Classify(s).Event? ==> EncodeEvent(Classify(s).body) == s
  {
    var e := EncodeEvent(body);
    assert e[2..] == body;
    if Classify(s).Event? {
      assert s == s[..2] + s[2..];
      assert s[..2] == "42";
    }
  }

  /** Messages that match no test: a pong, a probe ping, a Socket.IO connect,
      an empty Engine.IO message and the empty string. */
  lemma UnmatchedExamples()
    ensures Classify("3") == Unmatched
    ensures Classify("2probe") == Unmatched
    ensures Classify("40") == Unmatched
    ensures Classify("4") == Unmatched
    ensures Classify("") == Unmatched
    ensures Classify(SubscribeFrame) == Event(SubscribeBody)
  {
    EventRoundTrip(SubscribeBody, SubscribeFrame);
  }
}
