/** The shipping-size bucket of a submission (`calculateShippingCategory`):
    an ordered cascade of joint weight/value limits, first match wins. */
module Categoriser {

  datatype Category =
    | SmallParcel
    | MediumParcel
    | LargeParcel
    | ExtraLargeParcel
    | SpecialHandling
  {
    /** The string the payload carries. */
    function Name(): string {
      match this
      case SmallParcel => "small_parcel"
      case MediumParcel => "medium_parcel"
      case LargeParcel => "large_parcel"
      case ExtraLargeParcel => "extra_large_parcel"
      case SpecialHandling => "special_handling"
    }

    /** Position in the cascade, smallest bucket first. */
    function Rank(): nat {
      match this
      case SmallParcel => 0
      case MediumParcel => 1
      case LargeParcel => 2
      case ExtraLargeParcel => 3
      case SpecialHandling => 4
    }
  }

  /** The weight limits (kg) and value limits of the four bounded buckets. */
  const WeightLimits: seq<real> := [1.0, 5.0, 15.0, 30.0]
  const ValueLimits: seq<real> := [1000000.0, 5000000.0, 20000000.0, 100000000.0]

  function ShippingCategory(weight: real, value: real): (c: Category)
    ensures c == SmallParcel <==> weight <= 1.0 && value <= 1000000.0
    ensures c == SpecialHandling <==> weight > 30.0 || value > 100000000.0
  {
    if weight <= 1.0 && value <= 1000000.0 then SmallParcel
    else if weight <= 5.0 && value <= 5000000.0 then MediumParcel
    else if weight <= 15.0 && value <= 20000000.0 then LargeParcel
    else if weight <= 30.0 && value <= 100000000.0 then ExtraLargeParcel
    else SpecialHandling
  }

  /** The index of the first limit in `limits` that `x` does not exceed,
      or `|limits|` when it exceeds them all. */
  function Tier(x: real, limits: seq<real>): (t: nat)
    ensures t <= |limits|
    ensures forall i :: 0 <= i < t ==> x > limits[i]
    ensures t < |limits| ==> x <= limits[t]
  {
    if limits == [] then 0
    else if x <= limits[0] then 0
    else 1 + Tier(x, limits[1..])
  }

  function Max(a: nat, b: nat): nat {
    if a < b then b else a
  }

  /** Because both lists of limits increase, the first rule whose two limits
      hold is the later of the first weight limit and the first value limit
      that hold: the bucket is the larger of the weight's tier and the
      value's tier, each judged alone. */
  lemma CategoryIsLargerTier(weight: real, value: real)
    ensures ShippingCategory(weight, value).Rank()
         == Max(Tier(weight, WeightLimits), Tier(value, ValueLimits))
  {
    var tw, tv := Tier(weight, WeightLimits), Tier(value, ValueLimits);
    assert WeightLimits[0] == 1.0 && WeightLimits[1] == 5.0 && WeightLimits[2] == 15.0 && WeightLimits[3] == 30.0;
    assert ValueLimits[0] == 1000000.0 && ValueLimits[1] == 5000000.0;
    assert ValueLimits[2] == 20000000.0 && ValueLimits[3] == 100000000.0;
    // For each rule, its two limits hold exactly when both tiers reach it.
    forall i | 0 <= i < 4
      ensures weight <= WeightLimits[i] <==> tw <= i
      ensures value <= ValueLimits[i] <==> tv <= i
    {
    }
  }

  /** A heavier or more valuable cargo never lands in a smaller bucket. */
  lemma CategoryMonotone(w1: real, v1: real, w2: real, v2: real)
    requires w1 <= w2 && v1 <= v2
    ensures ShippingCategory(w1, v1).Rank() <= ShippingCategory(w2, v2).Rank()
  {
    CategoryIsLargerTier(w1, v1);
    CategoryIsLargerTier(w2, v2);
    TierMonotone(w1, w2, WeightLimits);
    TierMonotone(v1, v2, ValueLimits);
  }

  lemma {:induction false} TierMonotone(x: real, y: real, limits: seq<real>)
    requires x <= y
    ensures Tier(x, limits) <= Tier(y, limits)
  {
    if limits != [] && y > limits[0] {
      TierMonotone(x, y, limits[1..]);
    }
  }

  /** The boundary cases: each pair of limits itself still belongs to its
      bucket, value alone can push a light cargo into a larger bucket, and
      anything over 30 kg needs special handling whatever its value. */
  lemma CategoryBoundaries(anyValue: real)
    ensures ShippingCategory(1.0, 1000000.0) == SmallParcel
    ensures ShippingCategory(5.0, 5000000.0) == MediumParcel
    ensures ShippingCategory(15.0, 20000000.0) == LargeParcel
    ensures ShippingCategory(30.0, 100000000.0) == ExtraLargeParcel
    ensures ShippingCategory(1.01, 5000000.0) == MediumParcel
    ensures ShippingCategory(5.0, 5000001.0) == LargeParcel
    ensures ShippingCategory(0.5, 100000001.0) == SpecialHandling
    ensures ShippingCategory(31.0, anyValue) == SpecialHandling
  {
  }
}
