/**
 * The decision the MQTT event handler takes on a received message: the
 * topic test and the payload tests of main/app_main.c, both written with
 * `strncmp` bounded by the length of the received buffer.
 */
module LedCommand {
  import opened CStrings

  /** The one topic filter the device subscribes to and acts on. */
  const LedTopicText: string := "/ifpe/ads/embarcados/esp32/led"

  const LedTopic: seq<byte> := Ascii(LedTopicText)

  /** The ASCII digits "1" and "0" that command the LED. */
  const One: byte := '1' as int as byte
  const Zero: byte := '0' as int as byte

  /** What a received message does to the pin: drive it to a level, or nothing. */
  datatype Decision = SetLevel(level: nat) | Ignore

  /** The topic filter has 30 characters and none of them is null. */
  lemma LedTopicShape()
    ensures |LedTopic| == 30 && NoNul(LedTopic)
  {
  }

  /** `strncmp(topic, "/ifpe/ads/embarcados/esp32/led", topic_len) == 0`. */
  predicate TopicMatches(topic: seq<byte>) {
    StrNCmpEq(topic, CStr(LedTopic), |topic|)
  }

  /** `strncmp(data, "<digit>", data_len) == 0` for a one-character literal. */
  predicate PayloadMatches(payload: seq<byte>, digit: byte) {
    StrNCmpEq(payload, CStr([digit]), |payload|)
  }

  /**
   * The handler's decision on a Data event: if the topic passes, the "1" test
   * comes first, then the "0" test, and there is no else branch.
   */
  function Decide(topic: seq<byte>, payload: seq<byte>): (d: Decision)
    ensures d == Ignore || d == SetLevel(0) || d == SetLevel(1)
  {
    if !TopicMatches(topic) then Ignore
    else if PayloadMatches(payload, One) then SetLevel(1)
    else if PayloadMatches(payload, Zero) then SetLevel(0)
    else Ignore
  }

  /**
   * The payload test against a digit passes exactly for the empty payload and
   * for payloads that start with the digit followed by nothing or by a null.
   */
  lemma {:induction false} PayloadMatchesIff(payload: seq<byte>, digit: byte)
    requires digit != NUL
    ensures PayloadMatches(payload, digit) <==>
              |payload| == 0 ||
              (payload[0] == digit && (|payload| == 1 || payload[1] == NUL))
  {
    StrNCmpEqLiteral(payload, [digit], |payload|);
    var c := CStr([digit]);
    if |payload| >= 2 {
      assert payload[..2] == [payload[0], payload[1]];
      assert c[..2] == [digit, NUL];
    } else if |payload| == 1 {
      assert payload[..1] == [payload[0]];
      assert c[..1] == [digit];
    }
  }

  /**
   * The topic test passes exactly for a prefix of the filter (the empty topic
   * and the filter itself included), and for a longer buffer that holds the
   * filter followed by a null.
   */
  lemma {:induction false} TopicMatchesIff(topic: seq<byte>)
    ensures TopicMatches(topic) <==>
              (|topic| <= |LedTopic| && topic == LedTopic[..|topic|]) ||
              (|topic| > |LedTopic| && topic[..|LedTopic| + 1] == CStr(LedTopic))
  {
    LedTopicShape();
    StrNCmpEqLiteral(topic, LedTopic, |topic|);
    var c := CStr(LedTopic);
    if |topic| <= |LedTopic| {
      assert c[..|topic|] == LedTopic[..|topic|];
      assert topic[..|topic|] == topic;
    } else {
      assert c[..|LedTopic| + 1] == c;
    }
  }

  /** Every prefix of the filter, the empty topic among them, passes the topic test. */
  lemma PrefixTopicAccepted(k: nat)
    requires k <= |LedTopic|
    ensures TopicMatches(LedTopic[..k])
    ensures TopicMatches([])
  {
    TopicMatchesIff(LedTopic[..k]);
    TopicMatchesIff([]);
  }

  /**
   * A topic that extends the filter fails the topic test, unless the byte
   * right after the filter is a null; such a topic leaves the pin alone
   * whatever the payload.
   */
  lemma LongerTopicRejected(suffix: seq<byte>, payload: seq<byte>)
    requires suffix != [] && suffix[0] != NUL
    ensures !TopicMatches(LedTopic + suffix)
    ensures Decide(LedTopic + suffix, payload) == Ignore
  {
    var t := LedTopic + suffix;
    TopicMatchesIff(t);
    assert t[..|LedTopic| + 1][|LedTopic|] == suffix[0];
  }

  /** The filter followed by "/extra" is one such topic. */
  lemma ExtraLevelRejected(payload: seq<byte>)
    ensures Decide(LedTopic + Ascii("/extra"), payload) == Ignore
  {
    LongerTopicRejected(Ascii("/extra"), payload);
  }

  /**
   * On a topic that passes, the decision as a whole: level 1 for the empty
   * payload and for "1" (optionally followed by a null and anything), level 0
   * for "0" likewise, and nothing for every other payload.
   */
  lemma {:induction false} DecideOnMatchingTopic(topic: seq<byte>, payload: seq<byte>)
    requires TopicMatches(topic)
    ensures Decide(topic, payload) == SetLevel(1) <==>
              |payload| == 0 || (payload[0] == One && (|payload| == 1 || payload[1] == NUL))
    ensures Decide(topic, payload) == SetLevel(0) <==>
              |payload| > 0 && payload[0] == Zero && (|payload| == 1 || payload[1] == NUL)
    ensures Decide(topic, payload) == Ignore <==>
              (|payload| > 0 && payload[0] != One && payload[0] != Zero) ||
              (|payload| > 1 && (payload[0] == One || payload[0] == Zero) && payload[1] != NUL)
  {
    PayloadMatchesIff(payload, One);
    PayloadMatchesIff(payload, Zero);
  }

  /**
   * A topic that fails the test (neither a prefix of the filter nor the filter
   * followed by a null) leaves the pin alone, whatever the payload.
   */
  lemma FailingTopicIgnored(topic: seq<byte>, payload: seq<byte>)
    requires !(|topic| <= |LedTopic| && topic == LedTopic[..|topic|])
    requires !(|topic| > |LedTopic| && topic[..|LedTopic| + 1] == CStr(LedTopic))
    ensures Decide(topic, payload) == Ignore
  {
    TopicMatchesIff(topic);
  }

  /**
   * The decision as a whole, for every topic and payload: the pin changes iff
   * the topic passes and the payload is empty or is a digit followed by
   * nothing or by a null.
   */
  lemma DecideChangesPinIff(topic: seq<byte>, payload: seq<byte>)
    ensures Decide(topic, payload) != Ignore <==>
              ((|topic| <= |LedTopic| && topic == LedTopic[..|topic|]) ||
               (|topic| > |LedTopic| && topic[..|LedTopic| + 1] == CStr(LedTopic))) &&
              (|payload| == 0 ||
               ((payload[0] == One || payload[0] == Zero) && (|payload| == 1 || payload[1] == NUL)))
  {
    TopicMatchesIff(topic);
    if TopicMatches(topic) {
      DecideOnMatchingTopic(topic, payload);
    }
  }

  /** Exactly the one byte "1" on the LED topic drives the pin high. */
  lemma OneSetsHigh()
    ensures Decide(LedTopic, [One]) == SetLevel(1)
  {
    PrefixTopicAccepted(|LedTopic|);
    assert LedTopic[..|LedTopic|] == LedTopic;
    DecideOnMatchingTopic(LedTopic, [One]);
  }

  /** Exactly the one byte "0" on the LED topic drives the pin low. */
  lemma ZeroSetsLow()
    ensures Decide(LedTopic, [Zero]) == SetLevel(0)
  {
    PrefixTopicAccepted(|LedTopic|);
    assert LedTopic[..|LedTopic|] == LedTopic;
    DecideOnMatchingTopic(LedTopic, [Zero]);
  }

  /**
   * The "1" test runs first and every bounded comparison accepts a buffer of
   * length zero, so an empty payload drives the pin high and never low.
   */
  lemma EmptyPayloadSetsHigh(topic: seq<byte>)
    requires TopicMatches(topic)
    ensures Decide(topic, []) == SetLevel(1)
  {
  }

  /**
   * A payload with no null in it, other than the empty one and the single
   * digits, changes nothing.
   */
  lemma OtherPayloadsIgnored(topic: seq<byte>, payload: seq<byte>)
    requires NoNul(payload)
    requires payload != [] && payload != [One] && payload != [Zero]
    ensures Decide(topic, payload) == Ignore
  {
    if TopicMatches(topic) {
      DecideOnMatchingTopic(topic, payload);
      if |payload| == 1 {
        assert payload == [payload[0]];
      } else {
        assert payload[1] != NUL;
      }
    }
  }

  /** "10", "01", "2" and "1 " match neither digit, whatever the topic. */
  lemma NearMissPayloadsIgnored(topic: seq<byte>)
    ensures Decide(topic, Ascii("10")) == Ignore && Decide(topic, Ascii("01")) == Ignore
    ensures Decide(topic, Ascii("2")) == Ignore && Decide(topic, Ascii("1 ")) == Ignore
  {
    if TopicMatches(topic) {
      DecideOnMatchingTopic(topic, Ascii("10"));
      DecideOnMatchingTopic(topic, Ascii("01"));
      DecideOnMatchingTopic(topic, Ascii("2"));
      DecideOnMatchingTopic(topic, Ascii("1 "));
    }
  }

  /**
   * Only the first two bytes of the payload matter: "1" followed by a null
   * and any further bytes still drives the pin high.
   */
  lemma NulEndsPayloadComparison(topic: seq<byte>, rest: seq<byte>)
    requires TopicMatches(topic)
    ensures Decide(topic, [One, NUL] + rest) == SetLevel(1)
    ensures Decide(topic, [Zero, NUL] + rest) == SetLevel(0)
  {
    DecideOnMatchingTopic(topic, [One, NUL] + rest);
    DecideOnMatchingTopic(topic, [Zero, NUL] + rest);
  }
}
