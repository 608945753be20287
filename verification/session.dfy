/**
  The socket's message listener and the market-update handler: one inbound
  text message is classified and answered with log lines, at most one pong,
  and at most one handler call. Every exception the listener's try block can
  raise (a JSON syntax error, a property read of null or undefined, a string
  conversion that throws) is caught and becomes an ERROR log line carrying
  the raw message; nothing escapes the listener.
 */
module Session {
  import opened JsValues
  import opened Protocol
  import opened Effects

  /** The outcome of `JSON.parse`, which the model treats as an oracle. */
  datatype Decoded = Parsed(value: JsValue) | SyntaxError

  /** The outcome of one call of the market-update handler. */
  datatype HandlerResult = Reported(marketId: JsValue, count: JsValue) | Threw

  /** `handleMarketUpdate(data)`: reads the market id and the selection count
      and logs them. It throws when `data` is null or undefined (the read of
      `data.eventMarketId`) or when a logged value cannot be converted to a
      string. The count is the `length` of `data.selections`, or 0 when the
      selections are absent or falsy. */
  function HandleMarketUpdate(data: JsValue): (r: HandlerResult)
    ensures Nullish(data) ==> r == Threw
    ensures r.Reported? ==> !Nullish(data) && r.marketId == Prop(data, Name("eventMarketId"))
    ensures r.Reported? ==> !ToStringThrows(r.marketId) && !ToStringThrows(r.count)
    ensures !Nullish(data) && !ToStringThrows(Prop(data, Name("eventMarketId"))) ==>
              var selections := Prop(data, Name("selections"));
              && (selections.Arr? ==> r.Reported? && r.count == Num(|selections.elems| as real))
              && (!Truthy(selections) ==> r.Reported? && r.count == Num(0.0))
  {
    if Nullish(data) then Threw
    else
      var marketId := Prop(data, Name("eventMarketId"));
      var selections := Prop(data, Name("selections"));
      var odds := if Truthy(selections) then selections else Arr([]);
      var count := Prop(odds, Name("length"));
      if ToStringThrows(marketId) || ToStringThrows(count) then Threw
      else Reported(marketId, count)
  }

  /** A decoded "42" body that selects the market-update handler: element 0
      is the market-update event name and element 1 is `data`. */
  ghost predicate IsMarketPayload(body: string, parse: string -> Decoded, data: JsValue) {
    && parse(body).Parsed?
    && !Nullish(parse(body).value)
    && Prop(parse(body).value, Index(0)) == Str(MarketUpdateEvent)
    && Prop(parse(body).value, Index(1)) == data
  }

  /** The market-update condition, stated on the raw text: a "42" frame whose
      body decodes to a market-update payload for `data`. */
  ghost predicate IsMarketUpdate(text: string, parse: string -> Decoded, data: JsValue) {
    |text| >= 2 && text[0] == '4' && text[1] == '2' && IsMarketPayload(text[2..], parse, data)
  }

  /** The try block of a "42" frame: decode, read elements 0 and 1, and either
      call the handler or log the other event's name. */
  function HandleEvent(text: string, body: string, parse: string -> Decoded): (effs: seq<Effect>)
    ensures Sent(effs) == []
    ensures forall e :: e in effs ==> e.Log? || e.CallMarketHandler?
    ensures parse(body).SyntaxError? ==> effs == [Log(Error, FailedToParse(text))]
    ensures |MarketCalls(effs)| <= 1
    ensures forall d :: d in MarketCalls(effs) <==> IsMarketPayload(body, parse, d)
  {
    var failed := [Log(Error, FailedToParse(text))];
    match parse(body)
    case SyntaxError => failed
    case Parsed(payload) =>
      if Nullish(payload) then failed
      else
        var eventName := Prop(payload, Index(0));
        var eventData := Prop(payload, Index(1));
        if eventName == Str(MarketUpdateEvent) then
          [CallMarketHandler(eventData)] +
          match HandleMarketUpdate(eventData)
          case Reported(id, count) => [Log(Info, MarketUpdate(id, count))]
          case Threw => failed
        else if ToStringThrows(eventName) then failed
        else [Log(Debug, OtherEvent(eventName))]
  }

  /** The socket's message listener. Exactly the message "2" is answered, with
      exactly one pong; the market-update handler is called at most once, and
      exactly when the message is a market update; an unmatched message has
      no effect at all; and the listener never arms a timer nor touches a
      socket other than by the pong. */
  function HandleMessage(text: string, parse: string -> Decoded): (effs: seq<Effect>)
    ensures Sent(effs) == (if text == "2" then [PongFrame] else [])
    ensures |MarketCalls(effs)| <= 1
    ensures forall d :: d in MarketCalls(effs) <==> IsMarketUpdate(text, parse, d)
    ensures Classify(text) == Unmatched ==> effs == []
    ensures forall e :: e in effs ==> e.Log? || e.Send? || e.CallMarketHandler?
  {
    match Classify(text)
    case Handshake => [Log(Info, HandshakeOk)]
    case ServerClose => [Log(Info, ServerRequestedClose)]
    case Ping => [Log(Debug, PingReceived), Send(PongFrame)]
    case Event(body) => HandleEvent(text, body, parse)
    case Unmatched => []
  }

  /** A "42" frame whose body does not decode, or decodes to null, is logged
      at ERROR with the raw message and has no other effect; so is a market
      update whose handler throws (for example when element 1 is missing),
      after the one handler call. */
  lemma EventFailuresAreCaught(text: string, parse: string -> Decoded)
    requires |text| >= 2 && text[0] == '4' && text[1] == '2'
    ensures parse(text[2..]).SyntaxError? || parse(text[2..]) == Parsed(Null) ==>
              HandleMessage(text, parse) == [Log(Error, FailedToParse(text))]
    ensures forall d :: IsMarketPayload(text[2..], parse, d) && HandleMarketUpdate(d).Threw? ==>
              HandleMessage(text, parse) == [CallMarketHandler(d), Log(Error, FailedToParse(text))]
  {
  }

  /** A market update whose handler returns normally calls the handler once
      with element 1 and then logs, at INFO, the market id and the selection
      count the handler read; nothing else happens. */
  lemma MarketUpdatesAreReported(text: string, parse: string -> Decoded, data: JsValue)
    requires IsMarketUpdate(text, parse, data)
    requires HandleMarketUpdate(data).Reported?
    ensures HandleMessage(text, parse) ==
              [CallMarketHandler(data),
               Log(Info, MarketUpdate(HandleMarketUpdate(data).marketId, HandleMarketUpdate(data).count))]
  {
  }

  /** A "42" frame whose element 0 is anything but the market-update event
      name calls no handler and only logs that name at DEBUG, unless the name
      itself cannot be converted to a string; element 0 of a decoded value
      that is not an array (a number, a boolean, an object without key "0")
      reads as undefined and is logged the same way. */
  lemma OtherEventsOnlyLog(text: string, parse: string -> Decoded)
    requires |text| >= 2 && text[0] == '4' && text[1] == '2'
    requires parse(text[2..]).Parsed? && !Nullish(parse(text[2..]).value)
    requires Prop(parse(text[2..]).value, Index(0)) != Str(MarketUpdateEvent)
    ensures MarketCalls(HandleMessage(text, parse)) == []
    ensures !ToStringThrows(Prop(parse(text[2..]).value, Index(0))) ==>
              HandleMessage(text, parse) == [Log(Debug, OtherEvent(Prop(parse(text[2..]).value, Index(0))))]
  {
  }

  /** A market update with market id "M1" and one selection: the handler is
      called once with element 1 and reports the id and a count of 1. */
  lemma MarketUpdateExample(text: string, parse: string -> Decoded, selection: JsValue)
    requires |text| >= 2 && text[0] == '4' && text[1] == '2'
    requires parse(text[2..]) == Parsed(Arr([Str(MarketUpdateEvent),
                Obj(map[Name("eventMarketId") := Str("M1"), Name("selections") := Arr([selection])])]))
    ensures HandleMessage(text, parse) ==
              [CallMarketHandler(Obj(map[Name("eventMarketId") := Str("M1"), Name("selections") := Arr([selection])])),
               Log(Info, MarketUpdate(Str("M1"), Num(1.0)))]
  {
    var data := Obj(map[Name("eventMarketId") := Str("M1"), Name("selections") := Arr([selection])]);
    var payload := Arr([Str(MarketUpdateEvent), data]);
    assert Classify(text) == Event(text[2..]);
    assert Prop(payload, Index(0)) == Str(MarketUpdateEvent);
    assert Prop(payload, Index(1)) == data;
    assert Prop(data, Name("selections")) == Arr([selection]);
    assert HandleMarketUpdate(data) == Reported(Str("M1"), Num(1.0));
  }
}
