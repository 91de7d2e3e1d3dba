/** The enriched payload sent downstream (`prepareN8NPayload`): every field
    of the submission with its fixed default, the derived shipping category,
    cost estimate and special-handling flag, the caller metadata and the
    validation report. */
module Normaliser {
  import opened Php
  import opened Submission
  import opened Categoriser
  import opened CostEstimator
  import opened Validator

  /** `cargo_details` */
  datatype CargoDetails = CargoDetails(
    typeName: string,
    typeId: string,
    typeDescription: string,
    riskLevel: string,
    weightKg: real,
    weightGrams: int,
    weightDisplay: string,
    valueAmount: real,
    valueCurrency: string,
    valueCurrencySymbol: string,
    valueFormatted: string,
    insuranceRequired: bool,
    requiresSpecialHandling: bool,
    shippingCategory: Category,
    estimatedCostRange: CostEstimate)

  /** `metadata` */
  datatype Metadata = Metadata(
    ipAddress: string,
    userAgent: string,
    timezone: string,
    language: string,
    screenResolution: string,
    serverName: string,
    processedAt: string,
    dataValidation: ValidationReport)

  /** The payload, its keys in the order the script inserts them. */
  datatype Payload = Payload(
    eventType: string,
    timestamp: string,
    serverTime: int,
    source: string,
    action: string,
    cargoDetails: Option<CargoDetails>,
    user: Option<Json>,
    metadata: Metadata)

  /** The derived fields agree with the fields they are derived from. */
  predicate Consistent(d: CargoDetails) {
    && d.requiresSpecialHandling == (d.riskLevel == "high")
    && d.shippingCategory == ShippingCategory(d.weightKg, d.valueAmount)
    && d.estimatedCostRange == CostRange(d.weightKg, d.valueAmount, d.riskLevel)
  }

  /** `cargo_details` for a present `cargo_info`. The special-handling flag
      compares the submitted risk (or "") with "high", while the estimate
      uses the submitted risk or "medium"; both agree with the risk level the
      payload reports. */
  function CargoDetailsOf(ci: RawCargoInfo): (d: CargoDetails)
    ensures Consistent(d)
    ensures d.requiresSpecialHandling <==> TypeOf(ci).riskLevel == Some("high")
  {
    var t, w, v := TypeOf(ci), WeightOf(ci), ValueOf(ci);
    var risk := t.riskLevel.GetOr("medium");
    var weight, value := w.kg.GetOr(0.0), v.amount.GetOr(0.0);
    CargoDetails(
      t.name.GetOr("unknown"),
      t.id.GetOr("unknown"),
      t.description.GetOr(""),
      risk,
      weight,
      w.grams.GetOr(0),
      w.display.GetOr("0 kg"),
      value,
      v.currency.GetOr("unknown"),
      v.currencySymbol.GetOr(""),
      v.formatted.GetOr("0"),
      ci.insuranceRequired.GetOr(false),
      t.riskLevel.GetOr("") == "high",
      ShippingCategory(weight, value),
      CostRange(weight, value, risk))
  }

  /** The cargo details of a submission whose `cargo_info` is an empty
      object: every field at its default. */
  const DefaultDetails := CargoDetails(
    "unknown", "unknown", "", "medium",
    0.0, 0, "0 kg",
    0.0, "unknown", "", "0",
    false, false,
    SmallParcel, CostEstimate(0, 0, "IRR"))

  /** `metadata`: values sent by the web app win over the server's, and
      "unknown" stands in when neither is there. */
  function MetadataOf(raw: RawSubmission, env: Ambient): (md: Metadata)
    ensures var m := raw.metadata.GetOr(NoMetadata);
      && (raw.ipAddress.Some? ==> md.ipAddress == raw.ipAddress.value)
      && (m.userAgent.Some? ==> md.userAgent == m.userAgent.value)
      && (m.timezone.Some? ==> md.timezone == m.timezone.value)
      && (m.language.Some? ==> md.language == m.language.value)
      && (m.screenResolution.Some? ==> md.screenResolution == m.screenResolution.value)
    ensures env.serverName.Some? ==> md.serverName == env.serverName.value
    ensures md.processedAt == env.now
    ensures md.dataValidation == Validation(raw.cargoInfo.GetOr(NoCargoInfo))
  {
    var m := raw.metadata.GetOr(NoMetadata);
    Metadata(
      raw.ipAddress.GetOr(env.remoteAddr.GetOr("unknown")),
      m.userAgent.GetOr(env.httpUserAgent.GetOr("unknown")),
      m.timezone.GetOr("unknown"),
      m.language.GetOr("unknown"),
      m.screenResolution.GetOr("unknown"),
      env.serverName.GetOr("unknown"),
      env.now,
      Validation(raw.cargoInfo.GetOr(NoCargoInfo)))
  }

  /** `isset($data['telegram_user'])`: present and not null. */
  predicate HasUser(raw: RawSubmission): (r: bool)
    ensures r <==> raw.telegramUser.GetOr(Null) != Null
  {
    raw.telegramUser.Some? && raw.telegramUser.value != Null
  }

  /** The payload for a decoded submission. */
  function N8NPayload(raw: RawSubmission, env: Ambient): (p: Payload)
    ensures p.eventType == "cargo_information"
    ensures p.timestamp == env.now && p.serverTime == env.unixTime
    ensures p.cargoDetails.Some? <==> raw.cargoInfo.Some?
    ensures p.cargoDetails.Some? ==> Consistent(p.cargoDetails.value)
    ensures p.user.Some? <==> HasUser(raw)
    ensures p.user.Some? ==> p.user == raw.telegramUser
    ensures raw.cargoInfo.None? ==> p.metadata.dataValidation == ValidationReport(false, false, false, false, false)
  {
    Payload(
      "cargo_information",
      env.now,
      env.unixTime,
      raw.source.GetOr("telegram_web_app"),
      raw.action.GetOr("unknown"),
      if raw.cargoInfo.Some? then Some(CargoDetailsOf(raw.cargoInfo.value)) else None,
      if HasUser(raw) then raw.telegramUser else None,
      MetadataOf(raw, env))
  }

  /** `prepareN8NPayload`: the fixed keys first, then `cargo_details` (whose
      category and cost range are computed from the defaulted weight and
      value), `user` and `metadata`, each added in turn. */
  method PrepareN8NPayload(data: RawSubmission, env: Ambient) returns (payload: Payload)
    ensures payload == N8NPayload(data, env)
  {
    var source := data.source.GetOr("telegram_web_app");
    var action := data.action.GetOr("unknown");

    var cargoDetails: Option<CargoDetails> := None;
    if data.cargoInfo.Some? {
      var ci := data.cargoInfo.value;
      var t, w, v := TypeOf(ci), WeightOf(ci), ValueOf(ci);
      var weight := w.kg.GetOr(0.0);
      var value := v.amount.GetOr(0.0);
      var category := ShippingCategory(weight, value);
      var estimate := EstimateShippingCost(weight, value, t.riskLevel.GetOr("medium"));
      cargoDetails := Some(CargoDetails(
        t.name.GetOr("unknown"),
        t.id.GetOr("unknown"),
        t.description.GetOr(""),
        t.riskLevel.GetOr("medium"),
        weight,
        w.grams.GetOr(0),
        w.display.GetOr("0 kg"),
        value,
        v.currency.GetOr("unknown"),
        v.currencySymbol.GetOr(""),
        v.formatted.GetOr("0"),
        ci.insuranceRequired.GetOr(false),
        t.riskLevel.GetOr("") == "high",
        category,
        estimate));
    }

    var user: Option<Json> := None;
    if HasUser(data) {
      user := data.telegramUser;
    }

    var m := data.metadata.GetOr(NoMetadata);
    var validation := ValidateCargoData(data.cargoInfo.GetOr(NoCargoInfo));
    var metadata := Metadata(
      data.ipAddress.GetOr(env.remoteAddr.GetOr("unknown")),
      m.userAgent.GetOr(env.httpUserAgent.GetOr("unknown")),
      m.timezone.GetOr("unknown"),
      m.language.GetOr("unknown"),
      m.screenResolution.GetOr("unknown"),
      env.serverName.GetOr("unknown"),
      env.now,
      validation);

    payload := Payload("cargo_information", env.now, env.unixTime, source, action,
                       cargoDetails, user, metadata);
  }

  /** Each `cargo_details` field is the submitted value when there is one,
      and its fixed default otherwise. */
  lemma FieldsDefaultOrPassThrough(ci: RawCargoInfo)
    ensures var d, t, w, v := CargoDetailsOf(ci), TypeOf(ci), WeightOf(ci), ValueOf(ci);
      && (t.name.Some? ==> d.typeName == t.name.value) && (t.name.None? ==> d.typeName == "unknown")
      && (t.id.Some? ==> d.typeId == t.id.value) && (t.id.None? ==> d.typeId == "unknown")
      && (t.description.Some? ==> d.typeDescription == t.description.value)
      && (t.description.None? ==> d.typeDescription == "")
      && (t.riskLevel.Some? ==> d.riskLevel == t.riskLevel.value) && (t.riskLevel.None? ==> d.riskLevel == "medium")
      && (w.kg.Some? ==> d.weightKg == w.kg.value) && (w.kg.None? ==> d.weightKg == 0.0)
      && (w.grams.Some? ==> d.weightGrams == w.grams.value) && (w.grams.None? ==> d.weightGrams == 0)
      && (w.display.Some? ==> d.weightDisplay == w.display.value) && (w.display.None? ==> d.weightDisplay == "0 kg")
      && (v.amount.Some? ==> d.valueAmount == v.amount.value) && (v.amount.None? ==> d.valueAmount == 0.0)
      && (v.currency.Some? ==> d.valueCurrency == v.currency.value) && (v.currency.None? ==> d.valueCurrency == "unknown")
      && (v.currencySymbol.Some? ==> d.valueCurrencySymbol == v.currencySymbol.value)
      && (v.currencySymbol.None? ==> d.valueCurrencySymbol == "")
      && (v.formatted.Some? ==> d.valueFormatted == v.formatted.value) && (v.formatted.None? ==> d.valueFormatted == "0")
      && (ci.insuranceRequired.Some? ==> d.insuranceRequired == ci.insuranceRequired.value)
      && (ci.insuranceRequired.None? ==> !d.insuranceRequired)
  {
  }

  /** An empty `cargo_info` yields the defaults, and its cost range is quoted
      at the "medium" premium on a weight of 0. */
  lemma EmptyCargoInfoDefaults()
    ensures CargoDetailsOf(NoCargoInfo) == DefaultDetails
  {
    assert Round(0.0) == 0;
  }

  /** The raw record whose every key holds the corresponding field. */
  function Embed(d: CargoDetails): RawCargoInfo {
    RawCargoInfo(
      Some(RawType(Some(d.typeId), Some(d.typeName), Some(d.typeDescription), Some(d.riskLevel))),
      Some(RawWeight(Some(d.weightKg), Some(d.weightGrams), Some(d.weightDisplay))),
      Some(RawValue(Some(d.valueAmount), Some(d.valueCurrency), Some(d.valueCurrencySymbol),
                    Some(d.valueFormatted))),
      Some(d.insuranceRequired))
  }

  /** Normalising a fully specified record gives back exactly its fields,
      for every consistent set of cargo details. */
  lemma NormaliseEmbedRoundTrip(d: CargoDetails)
    requires Consistent(d)
    ensures CargoDetailsOf(Embed(d)) == d
  {
  }

  /** Normalising is idempotent: feeding the normalised fields back in
      changes nothing. */
  lemma NormaliseIdempotent(ci: RawCargoInfo)
    ensures CargoDetailsOf(Embed(CargoDetailsOf(ci))) == CargoDetailsOf(ci)
  {
    NormaliseEmbedRoundTrip(CargoDetailsOf(ci));
  }

  /** The category and the cost range are computed from the same defaulted
      weight and value the payload reports; without a submitted risk the
      cost carries the "medium" premium but no special handling is flagged. */
  lemma DerivedFieldsShareInputs(ci: RawCargoInfo)
    ensures var d := CargoDetailsOf(ci);
      && d.shippingCategory == ShippingCategory(WeightKg(ci), ValueAmount(ci))
      && d.estimatedCostRange == CostRange(WeightKg(ci), ValueAmount(ci), d.riskLevel)
      && (TypeOf(ci).riskLevel.None? ==>
            d.estimatedCostRange == CostRange(WeightKg(ci), ValueAmount(ci), "medium")
            && !d.requiresSpecialHandling)
  {
  }

  /** Every top-level and metadata field of the payload, key by key: the
      submitted value when there is one, then the server's value where the
      script consults one, then its default. A `metadata` object that is
      present but lacks a key defaults that key alone. */
  lemma PayloadDefaults(raw: RawSubmission, env: Ambient)
    ensures var p, m := N8NPayload(raw, env), raw.metadata.GetOr(NoMetadata);
      && (raw.source.Some? ==> p.source == raw.source.value)
      && (raw.source.None? ==> p.source == "telegram_web_app")
      && (raw.action.Some? ==> p.action == raw.action.value)
      && (raw.action.None? ==> p.action == "unknown")
      && (raw.ipAddress.Some? ==> p.metadata.ipAddress == raw.ipAddress.value)
      && (raw.ipAddress.None? && env.remoteAddr.Some? ==> p.metadata.ipAddress == env.remoteAddr.value)
      && (raw.ipAddress.None? && env.remoteAddr.None? ==> p.metadata.ipAddress == "unknown")
      && (m.userAgent.Some? ==> p.metadata.userAgent == m.userAgent.value)
      && (m.userAgent.None? && env.httpUserAgent.Some? ==> p.metadata.userAgent == env.httpUserAgent.value)
      && (m.userAgent.None? && env.httpUserAgent.None? ==> p.metadata.userAgent == "unknown")
      && (m.timezone.Some? ==> p.metadata.timezone == m.timezone.value)
      && (m.timezone.None? ==> p.metadata.timezone == "unknown")
      && (m.language.Some? ==> p.metadata.language == m.language.value)
      && (m.language.None? ==> p.metadata.language == "unknown")
      && (m.screenResolution.Some? ==> p.metadata.screenResolution == m.screenResolution.value)
      && (m.screenResolution.None? ==> p.metadata.screenResolution == "unknown")
      && (env.serverName.Some? ==> p.metadata.serverName == env.serverName.value)
      && (env.serverName.None? ==> p.metadata.serverName == "unknown")
      && p.metadata.processedAt == env.now
      && p.metadata.dataValidation
           == Validation(if raw.cargoInfo.Some? then raw.cargoInfo.value else NoCargoInfo)
  {
  }
}
