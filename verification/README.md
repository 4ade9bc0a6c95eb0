# Retail order pricing engine, in Dafny

This project models the pricing engine of a retail order calculator (`src/domain/pricing.ts`).
The engine takes a quantity, a price per item and a region code and produces a breakdown:

- the subtotal;
- a tiered volume discount, with its rate;
- the discounted subtotal;
- the region's tax, with its rate;
- the grand total.

Every monetary value is rounded to the cent, with a half cent rounding upward.
A missing region fails with `REGION_REQUIRED`, and an unknown region fails with `REGION_INVALID`.

Modelling choices:

- Money and rates are exact Dafny `real`s. The rates are the source's decimal constants, which are exact rationals here.
- `roundCurrency` is `floor(100·x + 1/2) / 100`. This is what `Math.round(x * 100) / 100` computes on exact numbers.
- The thrown `PricingError` becomes the `Err` arm of a `Result`. It carries the message and the code.
- An absent `quantity`, `pricePerItem` or `region` is `None` of an `Option`.
- `RegionCode` is the subset of strings that are keys of the tax table. `GetTaxRate` takes one, as the TypeScript type demands.

Files:

- `wrappers.dfy` defines `Option` and `Result`.
- `currency.dfy` holds the rounding rule and its properties.
- `pricing.dfy` holds the tables, the bracket search, region validation and the calculation.
- `pricing_properties.dfy` holds the properties that relate several calls, and the concrete breakdowns the unit tests check.

## Model

| member | source | states |
|---|---|---|
| Currency.RoundCurrency | src/domain/pricing.ts:31-34 | the result is a whole number of cents, and the value lies in the half-open window [result − 0.005, result + 0.005), i.e. nearest cent with halves going up |
| Currency.RoundCurrencyUnique | src/domain/pricing.ts:31-34 | the window pins the rounded value down: any whole-cent value within it is the rounded value |
| Currency.RoundCurrencyIdempotent | src/domain/pricing.ts:31-34 | rounding an amount that already has two decimals returns it unchanged |
| Currency.RoundCurrencyMonotone | src/domain/pricing.ts:31-34 | rounding preserves the order of amounts |
| Currency.RoundCurrencyHalfUp | src/domain/pricing.ts:31-34 | an amount exactly half a cent above a whole cent rounds up (1.005 becomes 1.01) |
| Currency.RoundedShare | src/domain/pricing.ts:84-87 | a rate applied to an amount and rounded is whole cents within half a cent of the product, and a rate in [0, 1] of a non-negative cent amount lands between zero and that amount |
| Pricing.RegionCodesAreTableKeys | src/domain/pricing.ts:1-9 | the tax table has a rate for exactly the five supported codes AUK, WLG, WAI, CHC, TAS |
| Pricing.OrZero | src/domain/pricing.ts:78-79 | a missing number counts as 0, a present one is itself |
| Pricing.RegionInvalidMessage | src/domain/pricing.ts:51 | the REGION_INVALID message is "Region '" then the region verbatim then "' is not supported.", and the region can be read back out of it |
| Pricing.FirstQualifying | src/domain/pricing.ts:37 | the search returns the first bracket whose threshold is at most the subtotal: every earlier threshold is above it, or no bracket qualifies |
| Pricing.GetDiscountRate | src/domain/pricing.ts:36-39 | the rate is one of 0, 0.03, 0.05, 0.07, 0.10, 0.15, lies in [0, 0.15], and is 0 below a subtotal of 1000 |
| Pricing.GetTaxRate | src/domain/pricing.ts:1-7 | each region's rate is its configured constant (AUK 0.0685, WLG 0.08, WAI 0.0625, CHC 0.04, TAS 0.0825) and lies strictly between 0 and 1 |
| Pricing.AssertRegion | src/domain/pricing.ts:45-55 | a missing or empty region is REGION_REQUIRED with "Region selection is required."; any other string outside the five codes is REGION_INVALID with the region interpolated; it succeeds exactly for the five codes and returns the region itself |
| Pricing.DiscountedSubtotal | src/domain/pricing.ts:85 | rounding the difference of two whole-cent amounts changes nothing, so the discounted subtotal is exactly subtotal − discount |
| Pricing.Total | src/domain/pricing.ts:88 | the rounded total is exactly the discounted subtotal plus the tax |
| Pricing.Breakdown | src/domain/pricing.ts:83-88 | the discount rate is that of the rounded subtotal and the tax rate is the region's; all amounts are whole cents; discountedSubtotal = subtotal − discountAmount and total = discountedSubtotal + taxAmount exactly; for a non-negative subtotal, 0 ≤ discount ≤ subtotal, 0 ≤ tax ≤ discounted subtotal ≤ total |
| Pricing.CalculateTotals | src/domain/pricing.ts:73-99 | region errors come first and whatever the quantity and price are (exact codes and messages); a result exists exactly for the five codes; then the subtotal is the product (missing numbers as 0) rounded to the cent and the rest is the breakdown for that region |
| PricingProperties.DiscountRateMatchesSchedule | src/domain/pricing.ts:11-17 | the bracket search equals the range table: ≥50000 → 0.15, ≥10000 → 0.10, ≥7000 → 0.07, ≥5000 → 0.05, ≥1000 → 0.03, else 0, with each breakpoint in the bracket it opens |
| PricingProperties.DiscountRateIsLargestQualifying | src/domain/pricing.ts:36-39 | the rate is 0 exactly when every threshold is above the subtotal; otherwise it is the rate of the largest threshold at or below the subtotal |
| PricingProperties.DiscountRateMonotone | src/domain/pricing.ts:36-39 | a larger subtotal never gets a smaller discount rate |
| PricingProperties.DiscountRateExamples | src/domain/pricing.test.ts:10-21 | 999.99 → 0, 1000 → 0.03, 5500 → 0.05, 7250 → 0.07, 12000 → 0.10, 75000 → 0.15 |
| PricingProperties.BreakdownRoundsEachShare | src/domain/pricing.ts:84-87 | the discount is round2(subtotal × the subtotal's bracket rate) and the tax is round2(discountedSubtotal × the region's rate) |
| PricingProperties.AmountsNonNegative | src/domain/pricing.ts:82-88 | for a non-negative quantity and price, no amount in a successful breakdown is negative, the discount never exceeds the subtotal and the tax never exceeds the discounted subtotal |
| PricingProperties.MissingQuantityGivesZero | src/domain/pricing.ts:78-79 | a missing quantity counts as 0, giving an all-zero breakdown with no discount and the region's tax rate |
| PricingProperties.ScenarioWai | src/domain/pricing.test.ts:37-47 | 10 × 1500 in WAI gives 15000 / 0.10 / 1500 / 13500 / 0.0625 / 843.75 / 14343.75 |
| PricingProperties.ScenarioChc | src/domain/pricing.test.ts:69-81 | 3 × 1234.567 in CHC gives 3703.70 / 111.11 / 3592.59 / 143.70 / 3736.29 |
| PricingProperties.ScenarioAuk | src/features/calculator/Calculator.test.tsx:31-44 | 50 × 200 in AUK gives a grand total of 9616.50 |
| PricingProperties.ScenarioWaiHalfCent | src/features/calculator/Calculator.test.tsx:46-57 | 5 × 1000 in WAI gives 5000 / 0.05 / 250 / 4750 / 0.0625 / 296.88 / 5046.88; the tax 296.875 is an exact half cent and rounds up |
| PricingProperties.ScenarioNyc | src/domain/pricing.test.ts:59-67 | region "NYC" fails with REGION_INVALID and "Region 'NYC' is not supported." |

## Left out

- Currency.RoundCurrency: models exact round-half-up on exact numbers, not IEEE-754 doubles. Adding `Number.EPSILON` (2^-52) does not undo float error for amounts of 4 or more. There it is less than half a unit in the last place, so the program rounds the float product as it is. The model and the program can therefore differ by a cent wherever a float product falls just below a half cent. Example: quantity 1, price 1013.50, region AUK. The double product 1013.5 × 0.03 is 30.404999999999998. The program would give discount 30.40, discounted subtotal 983.10 and total 1050.44, but the model gives 30.41, 983.09 and 1050.43.
- Currency.RoundCurrency: the `precision` parameter is fixed at its default of 2, the only value the engine uses.
- Pricing.GetTaxRate: an unknown region code cannot reach it. The `RegionCode` type excludes such codes, so the model needs no error path there.
- `PricingError`'s `name` field and its inheritance from `Error` are not modelled. Only the message and the code are.
- JavaScript numbers that are not finite reals (`NaN`, infinities) are not modelled. A `null`/`undefined` quantity or price is modelled as `None` and counts as 0.
- Negative or zero quantities and prices are computed as the source computes them, without rejection. The form layer rejects them, and it is not part of this model. The non-negativity properties are stated only for non-negative inputs.
- Purity and determinism need no lemma: every member is a mathematical function.
- The calculator UI, its input validation by `Number()` coercion, currency formatting, localStorage persistence, the page shell and the test/tooling configuration are not part of this model.
