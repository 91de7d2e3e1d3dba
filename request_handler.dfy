/** The script's top level: method gating, rejection of a falsy body, the
    destination check, then payload assembly, one delivery attempt and the
    reply to the caller. */
module RequestHandler {
  import opened Php
  import opened Submission
  import opened Normaliser
  import opened Forwarder
  import opened Configuration
  import CostEstimator

  /** The reply the script sends. */
  datatype Outcome =
    | Preflight
    | MethodNotAllowed
    | InvalidInput
    | NotConfigured(receivedData: Decoded, timestamp: string)
    | Sent(n8nResponse: Response, timestamp: string, cargoId: string)
    | DeliveryFailed(n8nError: string, receivedData: Decoded, timestamp: string)
  {
    /** The HTTP status of the reply; the script sets one only when it
        rejects a request. */
    function StatusCode(): nat {
      match this
      case MethodNotAllowed => 405
      case InvalidInput => 400
      case _ => 200
    }

    /** The reply's `success` field (a preflight reply has no body). */
    predicate Success() {
      Sent?
    }

    /** The reply's `message` on success, its `error` otherwise. */
    function Message(): string {
      match this
      case Preflight => ""
      case MethodNotAllowed => "Only POST method allowed"
      case InvalidInput => "Invalid JSON data"
      case NotConfigured(_, _) => "N8N webhook URL not configured"
      case Sent(_, _, _) => "Cargo data sent to n8n successfully"
      case DeliveryFailed(_, _, _) => "Failed to send cargo data to n8n"
    }
  }

  /** `uniqid('CARGO_')` */
  function CargoId(env: Ambient): string {
    "CARGO_" + env.uniqueId
  }

  /** One request. `network` stands for the POST that curl performs: given
      the destination and the payload, what the transfer reports back.
      `forwarded` is the payload handed to it, if it was called at all. */
  method HandleRequest(
    requestMethod: string,
    data: Body,
    webhookUrl: string,
    env: Ambient,
    network: (string, Payload) -> Observation)
    returns (outcome: Outcome, forwarded: Option<Payload>)
    ensures forwarded.Some? <==>
      requestMethod == "POST" && !Falsy(data) && IsConfigured(webhookUrl)
    ensures requestMethod == "OPTIONS" ==> outcome == Preflight
    ensures requestMethod != "OPTIONS" && requestMethod != "POST" ==> outcome == MethodNotAllowed
    ensures requestMethod == "POST" ==> (outcome == InvalidInput <==> Falsy(data))
    ensures requestMethod == "POST" && !Falsy(data) && !IsConfigured(webhookUrl) ==>
      outcome == NotConfigured(data, env.now)
    ensures forwarded.Some? ==>
      && forwarded.value == N8NPayload(Fields(data), env)
      && var result := ClassifyDelivery(network(webhookUrl, forwarded.value));
         (result.Delivered? ==> outcome == Sent(result.response, env.now, CargoId(env)))
         && (result.Failed? ==> outcome == DeliveryFailed(result.error, data, env.now))
    ensures outcome.NotConfigured? || outcome.DeliveryFailed? ==> outcome.receivedData == data
    ensures outcome.StatusCode() == 400 <==> requestMethod == "POST" && Falsy(data)
  {
    if requestMethod == "OPTIONS" {
      return Preflight, None;
    }
    if requestMethod != "POST" {
      return MethodNotAllowed, None;
    }
    if Falsy(data) {
      return InvalidInput, None;
    }
    if !IsConfigured(webhookUrl) {
      return NotConfigured(data, env.now), None;
    }
    var payload := PrepareN8NPayload(Fields(data), env);
    var result := ClassifyDelivery(network(webhookUrl, payload));
    if result.Delivered? {
      outcome := Sent(result.response, env.now, CargoId(env));
    } else {
      outcome := DeliveryFailed(result.error, data, env.now);
    }
    forwarded := Some(payload);
  }

  /** The submission `{cargo_info: {type: {id: "t1", risk_level: "high"},
      weight: {kg: 2}, value: {amount: 1000000, currency: "USD"}}}` sent to a
      configured destination that cannot be reached: the caller learns of
      the transport error and gets the submission back. */
  method UnreachableDestination() returns (outcome: Outcome, forwarded: Option<Payload>)
    ensures outcome == DeliveryFailed(
      "Could not resolve host: unreachable.example", UnreachableExample, "2024-01-01 00:00:00")
    ensures forwarded.Some? && forwarded.value.cargoDetails.Some?
    ensures forwarded.value.cargoDetails.value.requiresSpecialHandling
    ensures forwarded.value.cargoDetails.value.estimatedCostRange.min == 16000
  {
    var env := Ambient("2024-01-01 00:00:00", 1704067200, None, None, None, "0");
    var network := (url: string, p: Payload) =>
      Observation("Could not resolve host: unreachable.example", 0, "", Null);
    ShippedUrlIsConfigured();
    outcome, forwarded := HandleRequest("POST", UnreachableExample, ShippedWebhookUrl, env, network);
    CostEstimator.WorkedQuotes();
  }

  const UnreachableExample: Decoded := Record(NoFields.(cargoInfo := Some(RawCargoInfo(
    Some(NoType.(id := Some("t1"), riskLevel := Some("high"))),
    Some(NoWeight.(kg := Some(2.0))),
    Some(NoValue.(amount := Some(1000000.0), currency := Some("USD"))),
    None))), 0)
}
