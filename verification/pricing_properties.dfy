/** Properties of the pricing engine that relate several calls or hold for
    all inputs: the discount schedule, the bracket search, bounds on the
    amounts, and the concrete breakdowns the unit tests pin down. */
module PricingProperties {
  import opened Wrappers
  import opened Currency
  import opened Pricing

  /** The discount schedule as a table of half-open subtotal ranges. */
  function ScheduleRate(subtotal: real): real {
    if subtotal >= 50000.0 then 0.15
    else if subtotal >= 10000.0 then 0.10
    else if subtotal >= 7000.0 then 0.07
    else if subtotal >= 5000.0 then 0.05
    else if subtotal >= 1000.0 then 0.03
    else 0.0
  }

  /** The bracket search agrees with the range table, so each breakpoint
      belongs to the bracket it opens. */
  lemma DiscountRateMatchesSchedule(subtotal: real)
    ensures GetDiscountRate(subtotal) == ScheduleRate(subtotal)
  {
    var b := DiscountBrackets;
    assert b[0].threshold == 50000.0 && b[1].threshold == 10000.0 && b[2].threshold == 7000.0;
    assert b[3].threshold == 5000.0 && b[4].threshold == 1000.0;
  }

  predicate StrictlyDescending(brackets: seq<DiscountBracket>) {
    forall j, k :: 0 <= j < k < |brackets| ==> brackets[k].threshold < brackets[j].threshold
  }

  /** The rate returned is that of the bracket with the largest threshold
      at or below the subtotal, and 0 exactly when every threshold is above
      the subtotal. */
  lemma DiscountRateIsLargestQualifying(subtotal: real)
    ensures (forall j :: 0 <= j < |DiscountBrackets| ==> subtotal < DiscountBrackets[j].threshold)
            <==> GetDiscountRate(subtotal) == 0.0
    ensures GetDiscountRate(subtotal) != 0.0 ==>
              exists k :: 0 <= k < |DiscountBrackets|
                && DiscountBrackets[k].threshold <= subtotal
                && GetDiscountRate(subtotal) == DiscountBrackets[k].rate
                && forall j :: 0 <= j < |DiscountBrackets| && DiscountBrackets[j].threshold <= subtotal ==>
                     DiscountBrackets[j].threshold <= DiscountBrackets[k].threshold
  {
    var b := DiscountBrackets;
    assert StrictlyDescending(b);
    var k := FirstQualifying(b, subtotal);
    assert GetDiscountRate(subtotal) == if k < |b| then b[k].rate else 0.0;
    if k < |b| {
      assert forall j :: 0 <= j < |b| && b[j].threshold <= subtotal ==> k <= j;
    }
  }

  /** A larger subtotal never earns a smaller discount rate. */
  lemma DiscountRateMonotone(s: real, t: real)
    requires s <= t
    ensures GetDiscountRate(s) <= GetDiscountRate(t)
  {
    DiscountRateMatchesSchedule(s);
    DiscountRateMatchesSchedule(t);
  }

  /** The values the unit tests check. */
  lemma DiscountRateExamples()
    ensures GetDiscountRate(999.99) == 0.0
    ensures GetDiscountRate(1000.0) == 0.03
    ensures GetDiscountRate(5500.0) == 0.05
    ensures GetDiscountRate(7250.0) == 0.07
    ensures GetDiscountRate(12000.0) == 0.10
    ensures GetDiscountRate(75000.0) == 0.15
  {
    DiscountRateMatchesSchedule(999.99);
    DiscountRateMatchesSchedule(1000.0);
    DiscountRateMatchesSchedule(5500.0);
    DiscountRateMatchesSchedule(7250.0);
    DiscountRateMatchesSchedule(12000.0);
    DiscountRateMatchesSchedule(75000.0);
  }

  /** The discount and the tax are the cent nearest (halves up) to the
      subtotal times its bracket rate and to the discounted subtotal times
      the region's rate. */
  lemma BreakdownRoundsEachShare(subtotal: real, region: RegionCode)
    requires IsCents(subtotal)
    ensures Breakdown(subtotal, region).discountAmount == RoundCurrency(subtotal * GetDiscountRate(subtotal))
    ensures Breakdown(subtotal, region).taxAmount ==
            RoundCurrency(Breakdown(subtotal, region).discountedSubtotal * GetTaxRate(region))
  {
    RoundedShareRounds(subtotal, GetDiscountRate(subtotal));
    RoundedShareRounds(Breakdown(subtotal, region).discountedSubtotal, GetTaxRate(region));
  }

  /** For a non-negative quantity and price, the discount is between zero
      and the subtotal, and the tax between zero and the discounted
      subtotal, so nothing in the breakdown is negative. */
  lemma AmountsNonNegative(input: CalculationInput)
    requires OrZero(input.quantity) >= 0.0 && OrZero(input.pricePerItem) >= 0.0
    requires CalculateTotals(input).Ok?
    ensures var res := CalculateTotals(input).value;
            && 0.0 <= res.subtotal
            && 0.0 <= res.discountAmount <= res.subtotal
            && 0.0 <= res.discountedSubtotal <= res.subtotal
            && 0.0 <= res.taxAmount <= res.discountedSubtotal
            && res.discountedSubtotal <= res.total
  {
    var res := CalculateTotals(input).value;
    var product := OrZero(input.quantity) * OrZero(input.pricePerItem);
    assert 0.0 <= product;
    CentsNearZeroNonNegative(res.subtotal);
  }

  /** A missing quantity counts as zero, so a valid region yields an
      all-zero breakdown with no discount. */
  lemma MissingQuantityGivesZero(price: Option<real>, region: RegionCode)
    ensures CalculateTotals(CalculationInput(None, price, Some(region))) ==
            Ok(CalculationResult(0.0, 0.0, 0.0, 0.0, RegionTaxRates[region], 0.0, 0.0))
  {
    RoundCurrencyIdempotent(0.0);
  }

  /** 10 items at 1500 in WAI. */
  lemma ScenarioWai()
    ensures CalculateTotals(CalculationInput(Some(10.0), Some(1500.0), Some("WAI"))) ==
            Ok(CalculationResult(15000.0, 0.10, 1500.0, 13500.0, 0.0625, 843.75, 14343.75))
  {
    RoundCurrencyIdempotent(15000.0);
    DiscountRateMatchesSchedule(15000.0);
    RoundCurrencyIdempotent(1500.0);
    RoundCurrencyIdempotent(13500.0);
    RoundCurrencyIdempotent(843.75);
    RoundCurrencyIdempotent(14343.75);
  }

  /** 3 items at 1234.567 in CHC: every step rounds to the cent. */
  lemma ScenarioChc()
    ensures CalculateTotals(CalculationInput(Some(3.0), Some(1234.567), Some("CHC"))) ==
            Ok(CalculationResult(3703.70, 0.03, 111.11, 3592.59, 0.04, 143.70, 3736.29))
  {
    RoundCurrencyUnique(3703.701, 3703.70);
    DiscountRateMatchesSchedule(3703.70);
    RoundCurrencyUnique(111.111, 111.11);
    RoundCurrencyIdempotent(3592.59);
    RoundCurrencyUnique(143.7036, 143.70);
    RoundCurrencyIdempotent(3736.29);
  }

  /** 50 items at 200 in AUK: a half-cent-free tax of 616.50. */
  lemma ScenarioAuk()
    ensures CalculateTotals(CalculationInput(Some(50.0), Some(200.0), Some("AUK"))).Ok?
    ensures CalculateTotals(CalculationInput(Some(50.0), Some(200.0), Some("AUK"))).value.total == 9616.50
  {
    RoundCurrencyIdempotent(10000.0);
    DiscountRateMatchesSchedule(10000.0);
    RoundCurrencyIdempotent(1000.0);
    RoundCurrencyIdempotent(9000.0);
    RoundCurrencyIdempotent(616.50);
    RoundCurrencyIdempotent(9616.50);
  }

  /** 5 items at 1000 in WAI: the tax 296.875 is an exact half cent and
      rounds up to 296.88. */
  lemma ScenarioWaiHalfCent()
    ensures CalculateTotals(CalculationInput(Some(5.0), Some(1000.0), Some("WAI"))) ==
            Ok(CalculationResult(5000.0, 0.05, 250.0, 4750.0, 0.0625, 296.88, 5046.88))
  {
    RoundCurrencyIdempotent(5000.0);
    DiscountRateMatchesSchedule(5000.0);
    RoundCurrencyIdempotent(250.0);
    RoundCurrencyIdempotent(4750.0);
    RoundCurrencyUnique(296.875, 296.88);
    RoundCurrencyIdempotent(5046.88);
  }

  /** An unknown region is reported verbatim in the message. */
  lemma ScenarioNyc()
    ensures CalculateTotals(CalculationInput(Some(1.0), Some(100.0), Some("NYC"))) ==
            Err(PricingError("Region 'NYC' is not supported.", RegionInvalid))
  {
    assert "Region '" + "NYC" + "' is not supported." == "Region 'NYC' is not supported.";
  }
}
