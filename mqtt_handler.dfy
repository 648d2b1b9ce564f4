/**
 * The MQTT event handler of main/app_main.c: one event in, at most one pin
 * write or one subscribe request out. The pure functions say what an event
 * causes; the class `LedController` holds the pin level and what the handler
 * has issued, and its `HandleEvent` follows the handler's switch.
 */
module MqttHandler {
  import opened CStrings
  import opened LedCommand

  /** The error subtype carried by an Error event; only the transport case is named in the handler. */
  datatype ErrorKind = TcpTransport | OtherError(code: int)

  /** The events the MQTT client delivers to the handler, one at a time. */
  datatype Event =
    | Connected
    | Disconnected
    | Subscribed
    | Unsubscribed
    | Published
    | Data(topic: seq<byte>, payload: seq<byte>)
    | Error(kind: ErrorKind)
    | Other(id: int)

  /** MQTT quality of service 1, "at least once" (section 4.3.2 of MQTT Version 5.0). */
  const AtLeastOnce: nat := 1

  /** A subscribe request handed to the MQTT client. */
  datatype SubscribeRequest = Subscribe(topicFilter: seq<byte>, qos: nat)

  /** The pin levels an event writes, in order. */
  function PinWrites(e: Event): (w: seq<nat>)
    ensures |w| <= 1
    ensures w != [] ==> e.Data? && (w[0] == 0 || w[0] == 1)
  {
    match e
    case Data(topic, payload) =>
      (match Decide(topic, payload)
       case SetLevel(level) => [level]
       case Ignore => [])
    case _ => []
  }

  /** The subscribe requests an event issues, in order. */
  function Requests(e: Event): (r: seq<SubscribeRequest>)
    ensures r != [] <==> e.Connected?
    ensures e.Connected? ==> r == [Subscribe(LedTopic, AtLeastOnce)]
  {
    if e.Connected? then [Subscribe(LedTopic, AtLeastOnce)] else []
  }

  /** Every event but Connected and Data leaves the pin and the subscriptions alone. */
  lemma InertEvents(e: Event)
    requires !e.Connected? && !e.Data?
    ensures PinWrites(e) == [] && Requests(e) == []
  {
  }

  /** The pin and the record of what the handler issued. */
  class LedController {
    /** The level last driven on the LED pin. */
    var level: nat
    /** Every `gpio_set_level` the handler has issued, oldest first. */
    var writes: seq<nat>
    /** Every `esp_mqtt_client_subscribe` the handler has issued, oldest first. */
    var subscribes: seq<SubscribeRequest>

    ghost predicate Valid()
      reads this
    {
      level <= 1 &&
      (forall i | 0 <= i < |writes| :: writes[i] <= 1) &&
      (writes != [] ==> level == writes[|writes| - 1])
    }

    /**
     * The pin as `configure_led` leaves it: an output at whatever level the
     * reset gave it, nothing written and nothing subscribed yet.
     */
    constructor (initialLevel: nat)
      requires initialLevel <= 1
      ensures Valid()
      ensures level == initialLevel && writes == [] && subscribes == []
    {
      level := initialLevel;
      writes := [];
      subscribes := [];
    }

    /** `gpio_set_level` on the LED pin. */
    method SetPin(l: nat)
      requires Valid() && l <= 1
      modifies this
      ensures Valid()
      ensures level == l && writes == old(writes) + [l] && subscribes == old(subscribes)
    {
      level := l;
      writes := writes + [l];
    }

    /** `esp_mqtt_client_subscribe` of one topic filter. */
    method SubscribeTo(topicFilter: seq<byte>, qos: nat)
      requires Valid()
      modifies this
      ensures Valid()
      ensures subscribes == old(subscribes) + [Subscribe(topicFilter, qos)]
      ensures level == old(level) && writes == old(writes)
    {
      subscribes := subscribes + [Subscribe(topicFilter, qos)];
    }

    /**
     * The handler run on one event to completion: the new pin writes and
     * subscribe requests are those the event causes, appended to the old
     * ones, and the level is the one written, if any.
     */
    method HandleEvent(e: Event)
      requires Valid()
      modifies this
      ensures Valid()
      ensures writes == old(writes) + PinWrites(e)
      ensures subscribes == old(subscribes) + Requests(e)
      ensures level == if PinWrites(e) == [] then old(level) else PinWrites(e)[0]
    {
      match e
      case Connected =>
        SubscribeTo(LedTopic, AtLeastOnce);
      case Disconnected =>
      case Subscribed =>
      case Unsubscribed =>
      case Published =>
      case Data(topic, payload) =>
        if TopicMatches(topic) {
          if PayloadMatches(payload, One) {
            SetPin(1);
          } else if PayloadMatches(payload, Zero) {
            SetPin(0);
          }
        }
      case Error(kind) =>
        // The transport subtype has a branch of its own in the handler, and it is empty.
        if kind == TcpTransport {
        }
      case Other(id) =>
    }
  }

  /**
   * Connected, then "1" on the LED topic: one subscribe to the filter at
   * QoS 1, then one write of level 1. A second Connected subscribes again.
   */
  method ConnectThenSwitchOn(initialLevel: nat) returns (c: LedController)
    requires initialLevel <= 1
    ensures c.subscribes == [Subscribe(LedTopic, AtLeastOnce), Subscribe(LedTopic, AtLeastOnce)]
    ensures c.writes == [1] && c.level == 1
  {
    c := new LedController(initialLevel);
    c.HandleEvent(Connected);
    OneSetsHigh();
    c.HandleEvent(Data(LedTopic, [One]));
    c.HandleEvent(Connected);
  }

  /**
   * "0" on the LED topic writes level 0 once; "1" on another topic and "100"
   * on the LED topic write nothing.
   */
  method SwitchOffAndIgnore(initialLevel: nat) returns (c: LedController)
    requires initialLevel <= 1
    ensures c.writes == [0] && c.level == 0 && c.subscribes == []
  {
    c := new LedController(initialLevel);
    ZeroSetsLow();
    c.HandleEvent(Data(LedTopic, [Zero]));
    var other := Ascii("/other/topic");
    assert other[1] != LedTopic[1];
    TopicMatchesIff(other);
    c.HandleEvent(Data(other, [One]));
    var hundred := Ascii("100");
    OtherPayloadsIgnored(LedTopic, hundred);
    c.HandleEvent(Data(LedTopic, hundred));
  }
}
