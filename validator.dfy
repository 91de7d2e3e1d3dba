/** The informational validation report attached to every payload
    (`validateCargoData`): four independent checks and their conjunction. */
module Validator {
  import opened Php
  import opened Submission

  datatype ValidationReport = ValidationReport(
    weightValid: bool,
    valueValid: bool,
    typeValid: bool,
    currencyValid: bool,
    allValid: bool)

  const MaxWeightKg: real := 30.0
  const AcceptedCurrencies: seq<string> := ["IRR", "USD", "EUR"]

  /** The four checks, on the defaulted fields. */
  predicate WeightAccepted(kg: real) { 0.0 < kg <= MaxWeightKg }
  predicate ValueAccepted(amount: real) { amount > 0.0 }
  predicate TypeIdAccepted(id: string) { !IsEmptyString(id) }
  predicate CurrencyAccepted(currency: string) { currency in AcceptedCurrencies }

  /** The report on a `cargo_info` record. A missing key fails its own check
      and no other one; `all_valid` holds exactly when the four checks do. */
  function Validation(ci: RawCargoInfo): (r: ValidationReport)
    ensures r.weightValid <==>
      WeightOf(ci).kg.Some? && 0.0 < WeightOf(ci).kg.value <= 30.0
    ensures r.valueValid <==>
      ValueOf(ci).amount.Some? && ValueOf(ci).amount.value > 0.0
    ensures r.typeValid <==>
      TypeOf(ci).id.Some? && TypeOf(ci).id.value != "" && TypeOf(ci).id.value != "0"
    ensures r.currencyValid <==>
      ValueOf(ci).currency.Some? && ValueOf(ci).currency.value in {"IRR", "USD", "EUR"}
    ensures r.allValid <==> r.weightValid && r.valueValid && r.typeValid && r.currencyValid
  {
    var weightValid := WeightAccepted(WeightKg(ci));
    var valueValid := ValueAccepted(ValueAmount(ci));
    var typeValid := TypeIdAccepted(TypeOf(ci).id.GetOr(""));
    var currencyValid := CurrencyAccepted(ValueOf(ci).currency.GetOr(""));
    ValidationReport(weightValid, valueValid, typeValid, currencyValid,
                     weightValid && valueValid && typeValid && currencyValid)
  }

  /** `validateCargoData`: the checks are stored in an ordered array with
      `all_valid` preset to true, and a loop over that array clears
      `all_valid` at the first failing check and stops. */
  method ValidateCargoData(cargoInfo: RawCargoInfo) returns (report: ValidationReport)
    ensures report == Validation(cargoInfo)
  {
    var validation: seq<(string, bool)> := [
      ("weight_valid", WeightAccepted(WeightKg(cargoInfo))),
      ("value_valid", ValueAccepted(ValueAmount(cargoInfo))),
      ("type_valid", TypeIdAccepted(TypeOf(cargoInfo).id.GetOr(""))),
      ("currency_valid", CurrencyAccepted(ValueOf(cargoInfo).currency.GetOr(""))),
      ("all_valid", true)
    ];
    var allValid := true;
    var i := 0;
    while i < |validation|
      invariant 0 <= i <= |validation|
      invariant allValid
      invariant forall j :: 0 <= j < i ==> validation[j].0 == "all_valid" || validation[j].1
    {
      var (key, value) := validation[i];
      if key != "all_valid" && !value {
        allValid := false;
        break;
      }
      i := i + 1;
    }
    report := ValidationReport(validation[0].1, validation[1].1, validation[2].1,
                               validation[3].1, allValid);
  }

  /** With no `cargo_info` the report is all false; a record that passes
      every check can still be spoilt by dropping any one key. */
  lemma ValidationExamples()
    ensures Validation(NoCargoInfo) == ValidationReport(false, false, false, false, false)
    ensures var ok := RawCargoInfo(
        Some(NoType.(id := Some("x"))),
        Some(NoWeight.(kg := Some(30.0))),
        Some(NoValue.(amount := Some(1.0), currency := Some("IRR"))),
        None);
      Validation(ok).allValid
      && Validation(ok.(weight := Some(NoWeight.(kg := Some(0.0))))) == ValidationReport(false, true, true, true, false)
      && Validation(ok.(cargoType := Some(NoType.(id := Some("0"))))) == ValidationReport(true, true, false, true, false)
      && Validation(ok.(value := Some(NoValue.(amount := Some(1.0)))))== ValidationReport(true, true, true, false, false)
  {
  }
}
