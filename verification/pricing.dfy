/** The pricing engine: a static region tax table, a descending list of
    volume-discount brackets, region validation with two typed errors, and
    the subtotal / discount / tax / total pipeline, every monetary step
    rounded to the cent. */
module Pricing {
  import opened Wrappers
  import opened Currency

  /** Tax rate per region code; every rate lies strictly between 0 and 1. */
  const RegionTaxRates: map<string, real> :=
    map["AUK" := 0.0685, "WLG" := 0.08, "WAI" := 0.0625, "CHC" := 0.04, "TAS" := 0.0825]

  /** The five supported region codes. */
  const RegionCodes: set<string> := {"AUK", "WLG", "WAI", "CHC", "TAS"}

  /** The tax table has a rate for exactly the supported codes. */
  lemma RegionCodesAreTableKeys()
    ensures RegionTaxRates.Keys == RegionCodes
  {
  }

  /** A region code is a key of the tax table. */
  type RegionCode = s: string | s in RegionTaxRates witness "AUK"

  datatype DiscountBracket = DiscountBracket(threshold: real, rate: real)

  /** Discount brackets, highest threshold first. */
  const DiscountBrackets: seq<DiscountBracket> := [
    DiscountBracket(50000.0, 0.15),
    DiscountBracket(10000.0, 0.10),
    DiscountBracket(7000.0, 0.07),
    DiscountBracket(5000.0, 0.05),
    DiscountBracket(1000.0, 0.03)
  ]

  datatype PricingErrorCode = RegionRequired | RegionInvalid

  datatype PricingError = PricingError(message: string, code: PricingErrorCode)

  const RegionRequiredMessage: string := "Region selection is required."

  /** The message of a REGION_INVALID error, with the offending region
      spliced in verbatim between fixed text. */
  function RegionInvalidMessage(region: string): (m: string)
    ensures |m| == |region| + 27
    ensures m[..8] == "Region '" && m[|m| - 19..] == "' is not supported."
    ensures m[8..|m| - 19] == region
  {
    "Region '" + region + "' is not supported."
  }

  /** Quantity and price may be missing (they then count as 0); the region
      may be missing or empty. */
  datatype CalculationInput = CalculationInput(
    quantity: Option<real>,
    pricePerItem: Option<real>,
    region: Option<string>)

  /** The breakdown: monetary fields rounded to the cent, rates unrounded. */
  datatype CalculationResult = CalculationResult(
    subtotal: real,
    discountRate: real,
    discountAmount: real,
    discountedSubtotal: real,
    taxRate: real,
    taxAmount: real,
    total: real)

  /** Index of the first bracket whose threshold the subtotal meets or
      exceeds, or |brackets| when there is none: a left-to-right search. */
  function FirstQualifying(brackets: seq<DiscountBracket>, subtotal: real): (i: nat)
    ensures i <= |brackets|
    ensures forall j :: 0 <= j < i ==> subtotal < brackets[j].threshold
    ensures i < |brackets| ==> brackets[i].threshold <= subtotal
  {
    if |brackets| == 0 then 0
    else if subtotal >= brackets[0].threshold then 0
    else 1 + FirstQualifying(brackets[1..], subtotal)
  }

  /** The rate of the first qualifying bracket, or 0 when no bracket applies. */
  function GetDiscountRate(subtotal: real): (rate: real)
    ensures rate in {0.0, 0.03, 0.05, 0.07, 0.10, 0.15}
    ensures subtotal < 1000.0 ==> rate == 0.0
    ensures 0.0 <= rate <= 0.15
  {
    var i := FirstQualifying(DiscountBrackets, subtotal);
    if i < |DiscountBrackets| then DiscountBrackets[i].rate else 0.0
  }

  /** The configured tax rate of a (validated) region. */
  function GetTaxRate(region: RegionCode): (rate: real)
    ensures 0.0 < rate < 1.0
    ensures region == "AUK" ==> rate == 0.0685
    ensures region == "WLG" ==> rate == 0.08
    ensures region == "WAI" ==> rate == 0.0625
    ensures region == "CHC" ==> rate == 0.04
    ensures region == "TAS" ==> rate == 0.0825
  {
    RegionTaxRates[region]
  }

  /** Region validation: a missing or empty region is REGION_REQUIRED, any
      other string outside the five codes is REGION_INVALID. */
  function AssertRegion(region: Option<string>): (r: Result<RegionCode, PricingError>)
    ensures (region == None || region == Some("")) ==>
              r == Err(PricingError(RegionRequiredMessage, RegionRequired))
    ensures (region.Some? && region.value != "" && region.value !in RegionCodes) ==>
              r == Err(PricingError(RegionInvalidMessage(region.value), RegionInvalid))
    ensures r.Ok? <==> region.Some? && region.value in RegionCodes
    ensures r.Ok? ==> region == Some(r.value)
  {
    match region
    case None => Err(PricingError(RegionRequiredMessage, RegionRequired))
    case Some(s) =>
      if s == "" then Err(PricingError(RegionRequiredMessage, RegionRequired))
      else if s !in RegionTaxRates then Err(PricingError(RegionInvalidMessage(s), RegionInvalid))
      else Ok(s)
  }

  /** A missing number counts as 0. */
  function OrZero(x: Option<real>): (r: real)
    ensures x.None? ==> r == 0.0
    ensures x.Some? ==> r == x.value
  {
    match x
    case None => 0.0
    case Some(v) => v
  }

  /** Subtracting a whole-cent discount from a whole-cent subtotal needs no
      rounding, so the rounded difference is the exact difference. */
  function DiscountedSubtotal(subtotal: real, discountAmount: real): (r: real)
    requires IsCents(subtotal) && IsCents(discountAmount)
    ensures IsCents(r) && r == subtotal - discountAmount
  {
    CentsClosed(subtotal, discountAmount);
    RoundCurrencyIdempotent(subtotal - discountAmount);
    RoundCurrency(subtotal - discountAmount)
  }

  /** Likewise the rounded total is the exact sum of its whole-cent parts. */
  function Total(discountedSubtotal: real, taxAmount: real): (r: real)
    requires IsCents(discountedSubtotal) && IsCents(taxAmount)
    ensures IsCents(r) && r == discountedSubtotal + taxAmount
  {
    CentsClosed(discountedSubtotal, taxAmount);
    RoundCurrencyIdempotent(discountedSubtotal + taxAmount);
    RoundCurrency(discountedSubtotal + taxAmount)
  }

  /** The pipeline after validation: from the rounded subtotal and the
      region to the full breakdown. */
  function Breakdown(subtotal: real, region: RegionCode): (res: CalculationResult)
    requires IsCents(subtotal)
    ensures res.subtotal == subtotal && res.taxRate == RegionTaxRates[region]
    ensures res.discountRate == GetDiscountRate(subtotal)
    ensures IsCents(res.discountAmount) && IsCents(res.discountedSubtotal)
    ensures IsCents(res.taxAmount) && IsCents(res.total)
    ensures res.discountedSubtotal == res.subtotal - res.discountAmount
    ensures res.total == res.discountedSubtotal + res.taxAmount
    ensures 0.0 <= subtotal ==>
              && 0.0 <= res.discountAmount <= res.subtotal
              && 0.0 <= res.discountedSubtotal <= res.subtotal
              && 0.0 <= res.taxAmount <= res.discountedSubtotal
              && res.discountedSubtotal <= res.total
  {
    var discountRate := GetDiscountRate(subtotal);
    var discountAmount := RoundedShare(subtotal, discountRate);
    var discountedSubtotal := DiscountedSubtotal(subtotal, discountAmount);
    var taxRate := GetTaxRate(region);
    var taxAmount := RoundedShare(discountedSubtotal, taxRate);
    var total := Total(discountedSubtotal, taxAmount);
    CalculationResult(subtotal, discountRate, discountAmount, discountedSubtotal,
                      taxRate, taxAmount, total)
  }

  /** The whole calculation. The region is validated before any arithmetic,
      so a missing or unknown region fails whatever the quantity and price;
      on success the subtotal is the product rounded to the cent and the
      rest follows the breakdown pipeline with the region's tax rate. */
  function CalculateTotals(input: CalculationInput): (r: Result<CalculationResult, PricingError>)
    ensures (input.region == None || input.region == Some("")) ==>
              r == Err(PricingError("Region selection is required.", RegionRequired))
    ensures (input.region.Some? && input.region.value != ""
             && input.region.value !in RegionCodes) ==>
              r == Err(PricingError("Region '" + input.region.value + "' is not supported.", RegionInvalid))
    ensures r.Ok? <==> input.region.Some? && input.region.value in RegionCodes
    ensures r.Ok? ==>
      && r.value.subtotal - 0.005 <= OrZero(input.quantity) * OrZero(input.pricePerItem) < r.value.subtotal + 0.005
      && IsCents(r.value.subtotal)
      && r.value == Breakdown(r.value.subtotal, input.region.value)
  {
    var region := AssertRegion(input.region);
    if region.Err? then Err(region.error)
    else
      var subtotal := RoundCurrency(OrZero(input.quantity) * OrZero(input.pricePerItem));
      Ok(Breakdown(subtotal, region.value))
  }
}
