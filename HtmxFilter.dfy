/**
 * The request filter of src/Request/HtmxFilter.php: after the X-Forwarded
 * filter, every header whose name is one of the (lower-cased) htmx header
 * names becomes a request attribute of the same name.
 */
module HtmxFilter {
  import opened Php
  import opened Http

  /** The attribute value made from a header's values: only its first value
    * counts, and the exact string "true" becomes boolean true. A header with
    * no value reads `$value[0]` as null. */
  function AttributeValue(values: seq<string>): (v: Value)
    ensures v == Bool(true) <==> |values| > 0 && values[0] == "true"
    ensures |values| > 0 && values[0] != "true" ==> v == Str(values[0])
    ensures |values| == 0 ==> v == Null
  {
    if |values| == 0 then Null
    else if values[0] == "true" then Bool(true)
    else Str(values[0])
  }

  /** The keys of `array_flip` of the htmx header list. */
  function HtmxNames(htmxHeaders: seq<string>): set<string>
  {
    set h | h in htmxHeaders
  }

  /** The attribute of each header whose name is one of the htmx names. */
  function Promotions(headers: map<string, seq<string>>, names: set<string>): (p: map<string, Value>)
    ensures p.Keys == headers.Keys * names
  {
    map h | h in headers.Keys * names :: AttributeValue(headers[h])
  }

  /**
   * The attributes after promotion: a header whose name is exactly one of the
   * htmx names adds or replaces the attribute of that name; every other
   * attribute is kept as it was.
   */
  function Promoted(attributes: map<string, Value>, headers: map<string, seq<string>>, names: set<string>)
    : (r: map<string, Value>)
    ensures r.Keys == attributes.Keys + (headers.Keys * names)
    ensures forall h :: h in headers && h in names ==> r[h] == AttributeValue(headers[h])
    ensures forall k :: k in attributes && !(k in headers && k in names) ==> r[k] == attributes[k]
  {
    attributes + Promotions(headers, names)
  }

  /** One more header adds at most its own promotion. */
  lemma PromotionsAdd(done: map<string, seq<string>>, names: set<string>, header: string, values: seq<string>)
    requires header !in done
    ensures Promotions(done[header := values], names)
            == if header in names then Promotions(done, names)[header := AttributeValue(values)]
               else Promotions(done, names)
  {
    var before := Promotions(done, names);
    var after := Promotions(done[header := values], names);
    if header in names {
      var expected := before[header := AttributeValue(values)];
      assert after.Keys == expected.Keys;
      forall k | k in after ensures after[k] == expected[k] {
      }
    } else {
      assert after.Keys == before.Keys;
      forall k | k in after ensures after[k] == before[k] {
      }
    }
  }

  /** Promoting one more header adds or replaces at most its own attribute. */
  lemma PromotedAdd(attributes: map<string, Value>, done: map<string, seq<string>>, names: set<string>,
                    header: string, values: seq<string>)
    requires header !in done
    ensures Promoted(attributes, done[header := values], names)
            == if header in names then Promoted(attributes, done, names)[header := AttributeValue(values)]
               else Promoted(attributes, done, names)
  {
    PromotionsAdd(done, names, header, values);
    if header in names {
      var p := Promotions(done, names);
      assert attributes + p[header := AttributeValue(values)] == (attributes + p)[header := AttributeValue(values)];
    }
  }

  /**
   * `HtmxFilter::__invoke`. The loop takes the headers in an arbitrary
   * order, so the result it is proved to reach does not depend on the
   * order PHP iterates them in.
   */
  method Filter(request: Request, trustForwarded: Request -> Request, htmxHeaders: seq<string>)
    returns (result: Request)
    ensures var forwarded := trustForwarded(request);
            result == forwarded.(attributes := Promoted(forwarded.attributes, forwarded.headers, HtmxNames(htmxHeaders)))
  {
    result := trustForwarded(request);
    ghost var forwarded := result;
    var headers := result.headers;
    var names := HtmxNames(htmxHeaders);
    var pending := headers.Keys;
    ghost var done: map<string, seq<string>> := map[];
    while pending != {}
      invariant pending <= headers.Keys
      invariant done.Keys == headers.Keys - pending
      invariant forall h :: h in done ==> done[h] == headers[h]
      invariant result == forwarded.(attributes := Promoted(forwarded.attributes, done, names))
      decreases pending
    {
      var header :| header in pending;
      PromotedAdd(forwarded.attributes, done, names, header, headers[header]);
      if header in names {
        result := result.(attributes := result.attributes[header := AttributeValue(headers[header])]);
      }
      done := done[header := headers[header]];
      pending := pending - {header};
    }
    assert done == headers;
  }

  /** Whether a string has no ASCII upper-case letter. */
  predicate IsLowerCase(s: string)
  {
    forall i :: 0 <= i < |s| ==> !('A' <= s[i] <= 'Z')
  }

  /** Matching is exact: with a lower-cased header list, a header name that
    * has an upper-case letter is never promoted. */
  lemma MixedCaseNotPromoted(attributes: map<string, Value>, headers: map<string, seq<string>>,
                             htmxHeaders: seq<string>, name: string)
    requires forall h :: h in htmxHeaders ==> IsLowerCase(h)
    requires !IsLowerCase(name)
    ensures (name in Promoted(attributes, headers, HtmxNames(htmxHeaders))) == (name in attributes)
    ensures name in attributes ==> Promoted(attributes, headers, HtmxNames(htmxHeaders))[name] == attributes[name]
  {
    assert name !in HtmxNames(htmxHeaders);
  }

  /** "false", "TRUE" and "" stay strings. */
  lemma OnlyTrueBecomesBoolean()
    ensures AttributeValue(["false"]) == Str("false")
    ensures AttributeValue(["TRUE"]) == Str("TRUE")
    ensures AttributeValue([""]) == Str("")
    ensures AttributeValue(["true", "false"]) == Bool(true)
  {
  }
}
