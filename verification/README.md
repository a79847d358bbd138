# Ballistics units in Dafny

A model of the unit-conversion module of a long-range shooting calculator
(`ballistics/src/units.rs`). The module has:

- two distance types, `Yard` and `Inch`, each wrapping a scalar `units`, with
  `distance()` (a copy) and `moa()` (the inches one minute of angle covers at
  that range: `units / 100 * 1.047` for yards, scaled first by the
  yards-per-inch ratio `0.0277` for inches);
- conversions between them (multiply or divide by `INCH_YARD_RATIO = 0.0277`);
- `moa_adjustments_to_zero`, which divides an inch offset by the MOA size at a
  yard range to get a raw `MOAAdjustment`;
- `MOAAdjustment::good_enough`, which maps the raw amount to the half-MOA grid
  using the truncated integer part, the signed fractional part and two
  threshold comparisons.

Everything lives in one Dafny module, `Units` (`units.dfy`). The Rust structs
are datatypes with a `real` field, and their `impl` blocks are member functions.
The two `From` impls are the functions `InchToYard` and `YardToInch`. Rust's
`trunc`/`fract` are `Trunc` (rounding toward zero) and `Fract` (carrying the
sign of its argument).

The design description of the system says that the yard/inch round trip is not
exact. Over exact reals it is exact, and the model proves that. The same
description expects 1.0 for 2.1 in at 200 yd and 0.0 for 1 in at 400 yd. The
code as written gives 0.5 and -0.5, and the model follows the code (see
Findings).

## Model

| member | source | states |
|---|---|---|
| Units.Trunc | ballistics/src/units.rs:52 | the result is the integer part toward zero: for x ≥ 0, r ≤ x < r+1; for x < 0, r−1 < x ≤ r |
| Units.Fract | ballistics/src/units.rs:53 | trunc(x) + fract(x) = x, and fract lies in [0,1) for x ≥ 0 and in (−1,0] for x < 0 |
| Units.Yard.Distance | ballistics/src/units.rs:14 | the copy has identical units |
| Units.Yard.Moa | ballistics/src/units.rs:15-17 | the MOA size is zero exactly when the range is zero, and positive exactly when the range is positive |
| Units.Inch.Distance | ballistics/src/units.rs:24-26 | the copy has identical units |
| Units.Inch.Moa | ballistics/src/units.rs:27-29 | the MOA size is zero exactly when the range is zero, and positive exactly when the range is positive |
| Units.InchToYard | ballistics/src/units.rs:32-36 | dividing the yards by the ratio gives back the inches |
| Units.YardToInch | ballistics/src/units.rs:38-42 | multiplying the inches by the ratio gives back the yards |
| Units.MOAAdjustment.GoodEnough | ballistics/src/units.rs:51-58 | the result equals trunc(amount) + k·0.5 with k ∈ {−1,0,1}, and lies in (amount−1, amount+0.5) |
| Units.MOAAdjustment.NearestHalf | ballistics/src/units.rs:51-58 | corrected rounding: within 0.25 of the amount, and of the amount's sign |
| Units.MoaAdjustmentsToZero | ballistics/src/units.rs:61-63 | for a nonzero range, amount × MOA size at the range = the inch offset |
| Units.YardMoaSamples | ballistics/src/units.rs:83-89 | one MOA is 1.047 in at 100 yd and 3.25 × 1.047 in at 325 yd |
| Units.YardMoaLinear | ballistics/src/units.rs:15-17 | MOA size is linear in range: Yard(k·d).moa = k · Yard(d).moa |
| Units.InchMoaIsYardMoa | ballistics/src/units.rs:27-29 | an inch range has the MOA size of the same range converted to yards |
| Units.YardToInchKeepsMoa | ballistics/src/units.rs:27-42 | Inch::from(y).moa() = y.moa() for every yard value y |
| Units.InchMoaSamples | ballistics/src/units.rs:91-97 | 100 yd and 375 yd converted to inches give MOA sizes 1.047 and 3.75 × 1.047 |
| Units.YardRoundTrip | ballistics/src/units.rs:32-42 | yards → inches → yards is the identity |
| Units.InchRoundTrip | ballistics/src/units.rs:32-42 | inches → yards → inches is the identity |
| Units.ConversionSamples | ballistics/src/units.rs:69-81 | 400 yd is within 0.001 of 14440.433 in, and 4000 in is exactly 110.8 yd |
| Units.OneMoaAtFourHundredYards | ballistics/src/units.rs:99-102 | 4.188 in at 400 yd is an adjustment of exactly 1.0 MOA |
| Units.AdjustmentUnique | ballistics/src/units.rs:61-63 | the computed amount is the only amount whose product with the MOA size is the offset |
| Units.GoodEnoughOnGrid | ballistics/src/units.rs:51-58 | the result is a whole number of 0.5-MOA clicks |
| Units.GoodEnoughNonNegative | ballistics/src/units.rs:54-57 | for n ≤ amount < n+1 with n ≥ 0: below n+0.25 gives n−0.5, from n+0.25 to below n+0.75 gives n+0.5, from n+0.75 gives n |
| Units.GoodEnoughNegative | ballistics/src/units.rs:55 | every negative amount gives its truncation minus 0.5 |
| Units.GoodEnoughWholeNumbers | ballistics/src/units.rs:55 | every whole amount n, 0 included, gives n − 0.5 |
| Units.GoodEnoughMiddleBandIsNearest | ballistics/src/units.rs:56 | when 0.25 ≤ fract < 0.75, the result is the nearest half step and within 0.25 of the amount |
| Units.GoodEnoughSamples | ballistics/src/units.rs:104-106 | 6 in at 400 yd gives 1.5; 1 in at 400 yd gives −0.5; 1.1 in at 200 yd (the CLI's values) gives 0.5 |
| Units.GoodEnoughMissesNearestHalf | ballistics/src/units.rs:108-110 | 1.0 gives 0.5; 8 in at 400 yd gives 1.0 where 2.0 is nearest; 2.1 in at 200 yd gives 0.5 where 1.0 is nearest |
| Units.NearestHalfOnGrid | ballistics/src/units.rs:51-58 | the corrected result is a whole number of 0.5-MOA clicks |
| Units.NearestHalfIsNearest | ballistics/src/units.rs:51-58 | no whole number of clicks k·0.5 is closer to the amount than the corrected result |
| Units.NearestHalfFixesHalfSteps | ballistics/src/units.rs:51-58 | an amount of k whole clicks is returned unchanged by the corrected rounding |
| Units.NearestHalfOdd | ballistics/src/units.rs:51-58 | the corrected rounding is symmetric: negating the amount negates the result |

## Findings

| source | as written | input that shows it | evidently intended | confidence | as-written member | corrected member |
|---|---|---|---|---|---|---|
| ballistics/src/units.rs:54-57 | a fraction below 0.25 gives trunc − 0.5 and a fraction of at least 0.75 gives trunc, so the result is half a step low outside the middle band | amount 1.0 gives 0.5; 8 in at 400 yd (≈1.91 MOA) gives 1.0 while the test at line 110 expects 2.0; 2.1 in at 200 yd gives 0.5 | round to the nearest multiple of 0.5 (trunc, trunc ± 0.5, trunc ± 1 by the same thresholds) | high; not executed | Units.GoodEnoughMissesNearestHalf | Units.MOAAdjustment.NearestHalf |

## Left out

- Single-precision floating point: every quantity is an exact `real`, so IEEE
  rounding, and any rounding error in the exact-equality tests, is not modelled.
- Units.MoaAdjustmentsToZero: a zero range is excluded by a precondition. The
  Rust code divides by zero there and yields an infinity or NaN, and the model
  has no non-finite values.
- `moa_at` (ballistics/src/units.rs:60): an unused stub that returns 0 for every
  range. It has no behaviour worth stating.
- The test at ballistics/src/units.rs:73 is one-sided and holds trivially. The
  model states the actual value, 110.8 yd, instead of 111.111.
- The `LinearDistance` trait and the `From`/`Into` impls are plain functions
  here; the type-system plumbing has no behaviour of its own.
- `src/main.rs` is not part of this model. It is a command-line wrapper that
  builds fixed values and prints them. Its inputs appear in
  Units.GoodEnoughSamples.
