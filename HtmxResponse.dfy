/**
 * The response helpers of src/HtmxTriggerTrait.php and
 * src/HtmxResponseTrait.php: they write the `HX-Trigger` and `HX-Location`
 * response headers straight into the response's header table.
 */
module HtmxResponse {
  import opened Wrappers
  import opened Php

  /** `ResponseHeaders::HX_Trigger->value`. */
  const HX_TRIGGER: string := "HX-Trigger"
  /** `ResponseHeaders::HX_Location->value`. */
  const HX_LOCATION: string := "HX-Location"
  /** `HtmxTriggerTrait::SYSTEM_MESSAGE`, the default event name. */
  const SYSTEM_MESSAGE: string := "systemMessage"

  /** The key the event name becomes in `[$event => $data]`: a null event is
    * the empty-string key, a decimal integer string an integer key. */
  function EventKey(event: Option<string>): (k: Key)
    ensures event.None? ==> k == StrKey("")
    ensures event.Some? ==> k == ArrayKey(event.value)
  {
    ArrayKey(if event.Some? then event.value else "")
  }

  /** The header table after `htmxTrigger($data, $event)`: `HX-Trigger` holds
    * the JSON of the one-entry array from the event to the data (or false
    * when encoding fails), and no other header changes. */
  function WithTrigger(headers: map<string, Value>, encode: Value -> Option<string>,
                       data: seq<(Key, Value)>, event: Option<string>): (r: map<string, Value>)
    ensures r.Keys == headers.Keys + {HX_TRIGGER}
    ensures r[HX_TRIGGER] == JsonEncode(encode, Arr([(EventKey(event), Arr(data))]))
    ensures forall h :: h in headers && h != HX_TRIGGER ==> r[h] == headers[h]
  {
    headers[HX_TRIGGER := JsonEncode(encode, Arr([(EventKey(event), Arr(data))]))]
  }

  /** The header table after `htmxLocation($uri)`: `HX-Location` holds the
    * URI as given, and no other header changes. */
  function WithLocation(headers: map<string, Value>, uri: string): (r: map<string, Value>)
    ensures r.Keys == headers.Keys + {HX_LOCATION}
    ensures r[HX_LOCATION] == Str(uri)
    ensures forall h :: h in headers && h != HX_LOCATION ==> r[h] == headers[h]
  {
    headers[HX_LOCATION := Str(uri)]
  }

  /** A response using both traits; `headers` is its raw header table. */
  class HtmxResponse {
    var headers: map<string, Value>
    /** `json_encode`; `None` where it returns false. */
    const encode: Value -> Option<string>

    constructor (headers: map<string, Value>, encode: Value -> Option<string>)
      ensures this.headers == headers && this.encode == encode
    {
      this.headers := headers;
      this.encode := encode;
    }

    method HtmxTrigger(data: seq<(Key, Value)>, event: Option<string> := Some(SYSTEM_MESSAGE))
      modifies this
      ensures headers == WithTrigger(old(headers), encode, data, event)
    {
      headers := WithTrigger(headers, encode, data, event);
    }

    method HtmxLocation(uri: string)
      modifies this
      ensures headers == WithLocation(old(headers), uri)
    {
      headers := WithLocation(headers, uri);
    }
  }

  /** The default event is the string key "systemMessage". */
  lemma DefaultEventKey()
    ensures EventKey(Some(SYSTEM_MESSAGE)) == StrKey(SYSTEM_MESSAGE)
  {
    assert !IsDigit(SYSTEM_MESSAGE[0]);
  }

  /** A null event and the empty event name give the same key. */
  lemma NullEventIsEmptyName()
    ensures EventKey(None) == EventKey(Some(""))
  {
  }

  /** An event name of decimal digits becomes an integer key. */
  lemma NumericEventBecomesIntKey()
    ensures EventKey(Some("42")) == IntKey(42)
  {
    assert IsCanonicalDigits("42");
    assert "42"[..1] == "4";
    assert DigitsValue("4") == 4 by {
      assert "4"[..0] == [];
    }
  }

  /** Distinct event names give distinct keys. */
  lemma EventNamesDistinct(a: string, b: string)
    requires a != b
    ensures EventKey(Some(a)) != EventKey(Some(b))
  {
    if ArrayKey(a) == ArrayKey(b) {
      ArrayKeyInjective(a, b);
    }
  }

  /** A second trigger replaces the first: the header holds one event only. */
  lemma LastTriggerWins(headers: map<string, Value>, encode: Value -> Option<string>,
                        data1: seq<(Key, Value)>, event1: Option<string>,
                        data2: seq<(Key, Value)>, event2: Option<string>)
    ensures WithTrigger(WithTrigger(headers, encode, data1, event1), encode, data2, event2)
            == WithTrigger(headers, encode, data2, event2)
  {
  }

  /** A second location replaces the first; setting one twice is a no-op. */
  lemma LastLocationWins(headers: map<string, Value>, uri1: string, uri2: string)
    ensures WithLocation(WithLocation(headers, uri1), uri2) == WithLocation(headers, uri2)
    ensures WithLocation(WithLocation(headers, uri1), uri1) == WithLocation(headers, uri1)
  {
  }

  /** The two headers are independent: the calls commute. */
  lemma TriggerAndLocationCommute(headers: map<string, Value>, encode: Value -> Option<string>,
                                  data: seq<(Key, Value)>, event: Option<string>, uri: string)
    ensures WithLocation(WithTrigger(headers, encode, data, event), uri)
            == WithTrigger(WithLocation(headers, uri), encode, data, event)
  {
  }
}
