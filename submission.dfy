/** The cargo submission as the webhook receives it: the decoded request
    body, whose every key may be missing, and the ambient values the
    script reads from the server and the clock. */
module Submission {
  import opened Php

  /** `cargo_info.type` */
  datatype RawType = RawType(
    id: Option<string>,
    name: Option<string>,
    description: Option<string>,
    riskLevel: Option<string>)

  /** `cargo_info.weight` */
  datatype RawWeight = RawWeight(
    kg: Option<real>,
    grams: Option<int>,
    display: Option<string>)

  /** `cargo_info.value` */
  datatype RawValue = RawValue(
    amount: Option<real>,
    currency: Option<string>,
    currencySymbol: Option<string>,
    formatted: Option<string>)

  /** `cargo_info` */
  datatype RawCargoInfo = RawCargoInfo(
    cargoType: Option<RawType>,
    weight: Option<RawWeight>,
    value: Option<RawValue>,
    insuranceRequired: Option<bool>)

  /** `metadata`, as sent by the web app */
  datatype RawMetadata = RawMetadata(
    userAgent: Option<string>,
    timezone: Option<string>,
    language: Option<string>,
    screenResolution: Option<string>)

  /** The keys of the request body that the pipeline reads. `telegramUser`
      is passed through untouched, so it keeps any JSON value, null
      included; `Some(Null)` is a key that is present and holds null. */
  datatype RawSubmission = RawSubmission(
    source: Option<string>,
    action: Option<string>,
    cargoInfo: Option<RawCargoInfo>,
    telegramUser: Option<Json>,
    ipAddress: Option<string>,
    metadata: Option<RawMetadata>)

  const NoType := RawType(None, None, None, None)
  const NoWeight := RawWeight(None, None, None)
  const NoValue := RawValue(None, None, None, None)
  /** The `[]` that `$data['cargo_info'] ?? []` falls back to. */
  const NoCargoInfo := RawCargoInfo(None, None, None, None)
  const NoMetadata := RawMetadata(None, None, None, None)
  const NoFields := RawSubmission(None, None, None, None, None, None)

  /** What `json_decode($input, true)` produced. A JSON object is read
      through its known keys; `otherKeys` counts the keys the pipeline does
      not read, and the known keys that hold null. Anything else (the null
      of a malformed body, a scalar, a list) is `NonObject`; a JSON object is always a `Record`. */
  datatype Decoded =
    | Record(fields: RawSubmission, otherKeys: nat)
    | NonObject(value: Json)

  /** A body `json_decode` can produce: an object at the top level is
      always read as a `Record`. */
  type Body = d: Decoded | !(d.NonObject? && d.value.Object?) witness Record(NoFields, 0)

  /** How many of the keys the pipeline reads are present and non-null. */
  function KnownKeys(f: RawSubmission): nat {
    (if f.source.Some? then 1 else 0) + (if f.action.Some? then 1 else 0)
    + (if f.cargoInfo.Some? then 1 else 0) + (if f.telegramUser.Some? then 1 else 0)
    + (if f.ipAddress.Some? then 1 else 0) + (if f.metadata.Some? then 1 else 0)
  }

  /** `!$data`: the decoded body converts to false. An object is falsy
      exactly when it has no keys at all (an empty array in PHP); any other
      value exactly when it is one of PHP's falsy values. A rejected body
      never carries a key the pipeline reads. */
  predicate Falsy(data: Decoded): (r: bool)
    ensures data.Record? ==> (r <==> KnownKeys(data.fields) + data.otherKeys == 0)
    ensures data.NonObject? ==> (r <==> data.value in FalsyValues)
    ensures r ==> Fields(data) == NoFields
  {
    match data
    case Record(fields, otherKeys) => fields == NoFields && otherKeys == 0
    case NonObject(value) => !Truthy(value)
  }

  /** The keys `prepareN8NPayload` sees: every `$data[...] ?? d` on a value
      that is not an array takes its default. */
  function Fields(data: Decoded): RawSubmission {
    match data
    case Record(fields, _) => fields
    case NonObject(_) => NoFields
  }

  /** Values the script takes from its environment rather than the request:
      `date('Y-m-d H:i:s')`, `time()`, the `$_SERVER` entries and the suffix
      `uniqid` generates. */
  datatype Ambient = Ambient(
    now: string,
    unixTime: int,
    remoteAddr: Option<string>,
    httpUserAgent: Option<string>,
    serverName: Option<string>,
    uniqueId: string)

  /** `$cargoInfo['type'][...]`, `['weight'][...]` and `['value'][...]`:
      a missing group reads like a group with every key missing. */
  function TypeOf(ci: RawCargoInfo): RawType { ci.cargoType.GetOr(NoType) }
  function WeightOf(ci: RawCargoInfo): RawWeight { ci.weight.GetOr(NoWeight) }
  function ValueOf(ci: RawCargoInfo): RawValue { ci.value.GetOr(NoValue) }

  /** `$cargoInfo['weight']['kg'] ?? 0` */
  function WeightKg(ci: RawCargoInfo): real { WeightOf(ci).kg.GetOr(0.0) }

  /** `$cargoInfo['value']['amount'] ?? 0` */
  function ValueAmount(ci: RawCargoInfo): real { ValueOf(ci).amount.GetOr(0.0) }

  /** An empty object is rejected, and so are the falsy scalars; an object
      with any key at all, or holding null under a known key, is not. */
  lemma FalsyBodies()
    ensures Falsy(Record(NoFields, 0))
    ensures Falsy(NonObject(Null)) && Falsy(NonObject(Str("0"))) && Falsy(NonObject(Number(0.0)))
    ensures Falsy(NonObject(Array([]))) && Falsy(NonObject(Boolean(false)))
    ensures !Falsy(Record(NoFields, 1))
    ensures !Falsy(Record(NoFields.(telegramUser := Some(Null)), 0))
    ensures !Falsy(NonObject(Str("0.0"))) && !Falsy(NonObject(Array([Null])))
  {
  }
}
