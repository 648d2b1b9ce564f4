# LED control over MQTT: the event handler's decision, modelled in Dafny

The application connects an ESP32 to an MQTT broker, subscribes to the topic
`/ifpe/ads/embarcados/esp32/led` and drives one LED pin from the messages that
arrive on it. All of its own logic sits in `mqtt_event_handler`: on a
Connected event it issues one subscribe request at QoS 1 ("at least once",
section 4.3.2 of MQTT Version 5.0). On a Data event it compares the topic and
the payload with `strncmp` and drives the pin to 1 or to 0, or does nothing.
Every other event is only logged.

The project has three modules:

- `CStrings` (`cstrings.dfy`): bytes, C strings and `StrNCmpEq`. This predicate
  is true exactly when `strncmp(s1, s2, n)` returns zero. It follows
  ISO/IEC 9899:2011 section 7.24.4.4: at most `n` characters are compared, and
  nothing after a null character. `StrNCmpEqLiteral` characterises it against
  a string literal together with its terminating null.
- `LedCommand` (`led_command.dfy`): the topic test, the payload tests and
  `Decide`. `Decide` is the pure decision for a Data event.
  `DecideChangesPinIff` says, for every topic and payload, exactly when the pin
  changes, and `DecideOnMatchingTopic` says which level it is set to.
- `MqttHandler` (`mqtt_handler.dfy`): the closed `Event` datatype, the effect
  of each event (`PinWrites`, `Requests`) and the class `LedController`. The
  class holds the pin level, every `gpio_set_level` issued and every subscribe
  request issued. Its `HandleEvent` follows the handler's `switch` branch by
  branch, and its postcondition ties the new state to `PinWrites` and
  `Requests`.

Both comparisons in the source pass the length of the RECEIVED buffer as the
bound of `strncmp`. So the decision is not an exact equality, and the model
keeps this behaviour:

- a zero-length payload passes the "1" test, which comes first, so it drives
  the pin high;
- every prefix of the topic filter, the empty topic included, passes the
  topic test;
- a topic longer than the filter fails the topic test, unless a null follows
  the filter;
- "10", "01", "2" and "1 " match neither digit, but "1" or "0" followed by a
  null and anything else does match.

The header comment of main/app_main.c (lines 6-7) says the LED is switched
when "1" or "0" arrives on the topic. The length-bounded `strncmp` calls at
lines 73, 77 and 80 accept more than that, as listed above, and this model
follows the calls.

## Model

| member | source | states |
|---|---|---|
| CStrings.StrNCmpEqLiteral | main/app_main.c:73-80 | a bounded `strncmp` against a literal with no inner null returns zero iff the first min(n, length + 1) bytes of the buffer equal the literal followed by its terminator |
| CStrings.NulFreeMatchesArePrefixes | main/app_main.c:73-80 | a buffer with no null byte passes the length-bounded comparison iff it is a prefix of the literal, so it must not be longer |
| LedCommand.LedTopicShape | main/app_main.c:73 | the topic filter literal has 30 characters, none of them null |
| LedCommand.Decide | main/app_main.c:72-84 | the decision for a Data event is one of: set level 1, set level 0, no change |
| LedCommand.TopicMatchesIff | main/app_main.c:73 | the topic test passes iff the topic is a prefix of the filter (the empty topic and the filter itself included), or is longer and holds the filter followed by a null |
| LedCommand.PayloadMatchesIff | main/app_main.c:77-80 | a payload test against a digit passes iff the payload is empty, or starts with the digit followed by nothing or by a null |
| LedCommand.PrefixTopicAccepted | main/app_main.c:73 | every prefix of the filter passes the topic test, and so does the empty topic |
| LedCommand.LongerTopicRejected | main/app_main.c:73-84 | the filter extended by bytes whose first byte is not null fails the topic test, and the event causes no pin change whatever the payload |
| LedCommand.ExtraLevelRejected | main/app_main.c:73 | the filter followed by "/extra" causes no pin change |
| LedCommand.FailingTopicIgnored | main/app_main.c:73-84 | a topic that is neither a prefix of the filter nor the filter followed by a null causes no pin change, whatever the payload |
| LedCommand.DecideChangesPinIff | main/app_main.c:72-84 | for every topic and payload, the pin changes iff the topic passes the bounded test and the payload is empty or is "1" or "0" followed by nothing or by a null |
| LedCommand.DecideOnMatchingTopic | main/app_main.c:77-83 | on a topic that passes, the exact conditions for level 1 (empty payload, or "1" then end or null), for level 0 ("0" then end or null) and for no change (every other payload) |
| LedCommand.OneSetsHigh | main/app_main.c:73-79 | the one-byte payload "1" on the LED topic sets level 1 |
| LedCommand.ZeroSetsLow | main/app_main.c:73-82 | the one-byte payload "0" on the LED topic sets level 0 |
| LedCommand.EmptyPayloadSetsHigh | main/app_main.c:77-82 | the "1" test comes first and accepts a zero-length payload, so an empty payload on a passing topic sets level 1, never 0 |
| LedCommand.OtherPayloadsIgnored | main/app_main.c:77-83 | a payload with no null byte, other than empty, "1" or "0", causes no pin change, because there is no else branch |
| LedCommand.NearMissPayloadsIgnored | main/app_main.c:77-83 | "10", "01", "2" and "1 " cause no pin change on any topic |
| LedCommand.NulEndsPayloadComparison | main/app_main.c:77-82 | "1" or "0" followed by a null and any further bytes sets level 1 or level 0, because the comparison stops at the shared null |
| MqttHandler.PinWrites | main/app_main.c:67-85 | an event writes the pin at most once, only a Data event writes it, and the level written is 0 or 1 |
| MqttHandler.Requests | main/app_main.c:47-53 | an event issues a subscribe request iff it is Connected, and then exactly one, to the LED topic at QoS 1 |
| MqttHandler.InertEvents | main/app_main.c:54-94 | Disconnected, Subscribed, Unsubscribed, Published (lines 54-66), Error with either subtype (lines 86-91) and any other event id (lines 92-94) write no pin level and issue no subscribe request |
| MqttHandler.LedController.constructor | main/app_main.c:31-36 | the configured pin starts at its reset level, with nothing written and nothing subscribed |
| MqttHandler.LedController.SetPin | main/app_main.c:79-82 | a pin write (the level 1 write at line 79 and the level 0 write at line 82) records the level and makes it the current one; the subscriptions are unchanged |
| MqttHandler.LedController.SubscribeTo | main/app_main.c:51 | a subscribe appends one request; the pin is unchanged |
| MqttHandler.LedController.HandleEvent | main/app_main.c:39-96 | handling one event appends exactly the event's pin writes and subscribe requests to the record, and sets the level to the one written, if any; the state invariant is kept |
| MqttHandler.ConnectThenSwitchOn | main/app_main.c:46-85 | Connected, "1" on the LED topic, then Connected again: two identical subscribe requests, with no deduplication, and one write of level 1 |
| MqttHandler.SwitchOffAndIgnore | main/app_main.c:67-85 | "0" on the LED topic writes 0 once; "1" on another topic and "100" on the LED topic write nothing |

## Left out

- `app_main` (main/app_main.c:115-134): NVS, network-interface and event-loop start-up and the Wi-Fi join are calls into ESP-IDF. `ESP_ERROR_CHECK` aborts on their failure. None of this is logic of the application.
- `mqtt_app_start` (main/app_main.c:103-112): client creation, handler registration and start are calls into the MQTT library.
- The MQTT protocol, the broker and QoS delivery. The model records that a subscribe request was issued and claims nothing about delivery. The message id returned by `esp_mqtt_client_subscribe` is only logged and is not modelled.
- Logging: `ESP_LOGI` and the `printf` echo of topic and payload (main/app_main.c:69-70).
- Asynchronous delivery by the MQTT client's task. The handler is modelled as being called with one event at a time, and each call runs to completion.
- The GPIO hardware beyond one integer level. The pin number `CONFIG_BLINK_GPIO` is opaque. `configure_led` only fixes the starting state, and the level right after `gpio_reset_pin` is a parameter of the constructor.
- Topic bytes are arbitrary. MQTT itself forbids a null character in a topic name (section 1.5.4 of MQTT Version 5.0), but the model does not assume it, so the lemmas also say what a null inside a topic or payload does.
