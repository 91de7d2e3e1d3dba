/** The outcome of the single POST to the downstream webhook (the tail of
    `sendToN8N`). The transfer itself is external: what it reports back is
    an `Observation`, and the classification below is all the script does
    with it. */
module Forwarder {
  import opened Php

  /** What curl reports: `curl_error` ("" when the transfer worked), the
      HTTP status (0 when no response arrived), the raw response body, and
      what `json_decode($response, true)` makes of that body (`Null` when it
      is not JSON). */
  datatype Observation = Observation(
    error: string,
    httpCode: nat,
    body: string,
    decodedBody: Json)

  /** `$result['response']`: the decoded body when it is truthy, else the
      raw text (`json_decode($response, true) ?: $response`). */
  datatype Response = Decoded(json: Json) | Raw(text: string)

  /** `['success' => true, 'response' => ..., 'http_code' => ...]`, or
      `['success' => false, 'error' => ...]` with `'response'` only after an
      HTTP-level failure. */
  datatype DeliveryResult =
    | Delivered(response: Response, httpCode: nat)
    | Failed(error: string, rawBody: Option<string>)

  /** The status codes counted as delivered: 2xx and 3xx. */
  predicate AcceptedStatus(code: nat) {
    200 <= code < 400
  }

  /** `"HTTP $httpCode"`: the status written in decimal without leading
      zeros, which reads back as exactly that status. */
  function HttpErrorText(code: nat): (t: string)
    ensures |t| > 5 && t[..5] == "HTTP "
    ensures |t| > 6 ==> t[5] != '0'
    ensures HttpStatusOf(t) == Some(code)
  {
    var digits := NatToDecimal(code);
    var text := "HTTP " + digits;
    assert text[..5] == "HTTP ";
    assert text[5..] == digits;
    assert forall i :: 5 <= i < |text| ==> IsDigit(text[i]) by {
      forall i | 5 <= i < |text| ensures IsDigit(text[i]) {
        assert text[i] == digits[i - 5];
      }
    }
    DecimalRoundTrip(code);
    text
  }

  /** Classification of one attempt. A transport error wins over any status;
      otherwise a 2xx or 3xx status is a delivery and every other status an
      HTTP failure that carries the raw body. */
  function ClassifyDelivery(o: Observation): (r: DeliveryResult)
    ensures r.Delivered? <==> IsEmptyString(o.error) && AcceptedStatus(o.httpCode)
    ensures r.Failed? && r.rawBody.None? <==> !IsEmptyString(o.error)
    ensures !IsEmptyString(o.error) ==> r.error == o.error
    ensures r.Delivered? ==> r.httpCode == o.httpCode
    ensures r.Delivered? ==> (r.response.Raw? <==> !Truthy(o.decodedBody))
    ensures r.Delivered? && r.response.Raw? ==> r.response.text == o.body
    ensures r.Delivered? && r.response.Decoded? ==> r.response.json == o.decodedBody
    ensures r.Failed? && r.rawBody.Some? ==>
      r.rawBody.value == o.body && HttpStatusOf(r.error) == Some(o.httpCode)
  {
    if !IsEmptyString(o.error) then
      Failed(o.error, None)
    else if AcceptedStatus(o.httpCode) then
      Delivered(if Truthy(o.decodedBody) then Decoded(o.decodedBody) else Raw(o.body), o.httpCode)
    else
      Failed(HttpErrorText(o.httpCode), Some(o.body))
  }

  /** Reads the status back out of an "HTTP <code>" error text. */
  function HttpStatusOf(error: string): Option<nat> {
    if |error| > 5 && error[..5] == "HTTP "
       && forall i :: 5 <= i < |error| ==> IsDigit(error[i])
    then
      var digits := error[5..];
      assert forall i :: 0 <= i < |digits| ==> IsDigit(digits[i]) by {
        forall i | 0 <= i < |digits| ensures IsDigit(digits[i]) {
          assert digits[i] == error[i + 5];
        }
      }
      Some(DecimalValue(digits))
    else None
  }

  /** The edges of the accepted range: 200 and 399 are deliveries, and a
      transport error overrides even a 200. */
  lemma AcceptedBoundaries(body: string)
    ensures ClassifyDelivery(Observation("", 200, body, Null)) == Delivered(Raw(body), 200)
    ensures ClassifyDelivery(Observation("", 399, body, Null)) == Delivered(Raw(body), 399)
    ensures ClassifyDelivery(Observation("timeout", 200, body, Null)) == Failed("timeout", None)
  {
  }

  /** Just outside the accepted range: HTTP failures that name their status
      and carry the body. */
  lemma RejectedBoundaries(body: string)
    ensures ClassifyDelivery(Observation("", 199, body, Null)).Failed?
    ensures ClassifyDelivery(Observation("", 400, body, Null)) == Failed("HTTP 400", Some(body))
  {
    assert NatToDecimal(400) == "400" by {
      assert NatToDecimal(4) == "4";
      assert NatToDecimal(40) == "40";
    }
    HttpErrorTextSpelled(400);
  }

  /** A server error is an HTTP failure reported as "HTTP 500". */
  lemma ServerErrorReported(body: string)
    ensures ClassifyDelivery(Observation("", 500, body, Null)) == Failed("HTTP 500", Some(body))
  {
    assert NatToDecimal(500) == "500" by {
      assert NatToDecimal(5) == "5";
      assert NatToDecimal(50) == "50";
    }
    HttpErrorTextSpelled(500);
  }

  /** The error text is "HTTP " followed by the status's decimal text. */
  lemma HttpErrorTextSpelled(code: nat)
    ensures HttpErrorText(code) == "HTTP " + NatToDecimal(code)
  {
  }
}
