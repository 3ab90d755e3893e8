# Shipping quote calculator — a Dafny model

This project models the pricing core of a small shipping-quote service. The
service takes two postal codes (origin and destination), a weight in kilograms,
package dimensions in centimetres and an express flag. It returns a price in
cents, a delivery-time text, and both service tiers ("standard", "express").
The core has two parts:

- **Validator** (`validator.dfy`, module `Validator`). It checks the postal-code
  format, checks that weight is positive, and checks that each dimension is
  positive with a volume of at most 15000 cm³. Each check reports its first
  failure as a `ValidationError` value.
- **Shipping service** (`pricing.dfy`, module `Pricing`). It computes a base
  cost from the numeric distance between the two normalized postal codes, with
  a silent flat fallback when a code does not read as a number. It adds
  linear weight and volume surcharges and a 50% express surcharge. It then
  assembles the response, which always lists standard first and express
  second. The whole calculation fails fast in the order origin, destination,
  weight, dimensions.

Supporting modules:

- `model.dfy` (`Model`) holds the value objects of `internal/model/shipping.go:4-42`.
- `numerals.dfy` (`Numerals`) holds the two number/text conversions the service
  relies on: reading a normalized postal code as a number, and rendering a day
  count.
- `outcomes.dfy` (`Outcomes`) holds `Option`, `Result`, the validator outcome
  `Outcome` (no error, or an error) and `FirstFailure`, the reference meaning
  of "run checks in order, report the first failure".

All of it is pure, as in the source: functions, datatypes and lemmas, with no
state and no loops. The only loop in the source is the early-exit digit scan,
and it becomes the recursive predicate `ScanDigits`.

Go's `float64` arithmetic is modelled with `real`. Every constant of the
source (0.10, 0.5, 0.05, 1000, 0.50, 10000, 15000) is an exact real.
Error messages are values. `ValidationError` has one constructor per message
of the validator. `ShippingError` pairs a cause with the request field it was
found in (`Category`), and `ErrorMessage` renders the `"invalid <field>: "`
prefix in front of the cause's text.

The comment at `internal/service/shipping.go:145` says the distance factor is
"1% increase per 1000 units of distance difference", but the code at line 146 adds distance/10000. That is
10% of the base cost per 1000 units. The model follows the code, and
`DistanceCostStep` states the 10% step.

## Model

| member | source | states |
|---|---|---|
| `Outcomes.FirstFailure` | internal/service/shipping.go:53-89 | passes iff every check passes; otherwise returns a failing check such that every earlier check passed |
| `Numerals.ParseDecimal` | internal/service/shipping.go:123-124 | reading a normalized code succeeds exactly on a non-empty run of ASCII digits; an n-digit value is below 10^n |
| `Numerals.ParseDecimalLeadingZero` | internal/service/shipping.go:123-124 | a leading zero does not change the value read ("01000000" reads as 1000000) |
| `Numerals.DecimalString` | internal/service/shipping.go:202 | the `%d` rendering of a count is a non-empty run of digits with no leading zero unless the count is 0 |
| `Numerals.ParseDecimalOfDecimalString` | internal/service/shipping.go:123-124 | round trip: reading back a rendered number gives the number |
| `Validator.Message` | internal/validator/shipping.go:19-63 | the zipcode messages start with the field name and say more than it; the volume message starts with "package volume (" and the formatted volume |
| `Validator.ZipcodeMessagesDifferOnlyInField` | internal/validator/shipping.go:19-33 | the "is required" and "must be a valid zipcode format" messages start with the field name, and the rest does not depend on it |
| `Validator.RemoveAll` | internal/validator/shipping.go:23 | `ReplaceAll(s, c, "")`: the result has no `c`, and each character in it comes from the input |
| `Validator.RemoveAllAbsent` | internal/validator/shipping.go:23 | removing a character that does not occur changes nothing |
| `Validator.RemoveAllConcat` | internal/validator/shipping.go:23 | removal distributes over concatenation |
| `Validator.Normalize` | internal/validator/shipping.go:23 | a normalized code contains no hyphen and no space |
| `Validator.NormalizeKeepsNonSeparators` | internal/validator/shipping.go:23 | the hyphen-then-space removal equals one pass keeping every other character in order, so exactly `-` and ` ` are removed |
| `Validator.NormalizeIdempotent` | internal/validator/shipping.go:23 | normalizing twice gives the same result as normalizing once |
| `Validator.NormalizeConcat` | internal/validator/shipping.go:23 | normalization works piecewise over concatenation |
| `Validator.NormalizeSeparatorFree` | internal/validator/shipping.go:23 | a code without separators is already normalized |
| `Validator.NormalizeHyphen` | internal/validator/shipping.go:23 | a lone hyphen normalizes to the empty string |
| `Validator.NormalizeAroundHyphen` | internal/validator/shipping.go:23 | "12345-678" normalizes to "12345678": a hyphen between separator-free parts is dropped |
| `Validator.ScanDigits` | internal/validator/shipping.go:31-35 | the early-exit scan accepts exactly when every character is a digit |
| `Validator.ValidateZipcode` | internal/validator/shipping.go:17-38 | accepts iff the code is non-empty and its normalized form has 4 to 8 characters, all digits; "" fails with Required(field); every other rejection is BadFormat(field) |
| `Validator.ZipcodeExamples` | internal/validator/shipping.go:18-28 | "" is Required, while "   " (non-empty, normalizes to "") is BadFormat: the empty check precedes normalization |
| `Validator.ShortZipcodeExample` | internal/validator/shipping.go:26-28 | "123" is too short and fails with BadFormat |
| `Validator.DigitsExample` | internal/validator/shipping.go:26-35 | "01310100" satisfies the length and digit conditions |
| `Validator.AcceptedZipcodeExample` | internal/validator/shipping.go:17-38 | "01310-100" is accepted |
| `Validator.ValidateWeight` | internal/validator/shipping.go:41-46 | accepts iff weight > 0, so zero is rejected; the only error is WeightNotPositive |
| `Validator.ValidateDimensions` | internal/validator/shipping.go:49-66 | accepts iff all three sides are positive and their product is at most 15000; a volume error carries the product, which exceeds 15000 |
| `Validator.CalculateVolume` | internal/validator/shipping.go:69-71 | the signed product of the sides: three positive sides give a positive volume; the volume is zero exactly when some side is zero; otherwise it is negative exactly when an odd number of sides are negative (so one negative side with two positive ones, in any position, gives a negative volume, and -10×-5×-2 is negative) |
| `Validator.ValidateDimensionsReportsFirstFailure` | internal/validator/shipping.go:49-63 | the reported error is the first failing check in the order length, width, height, volume |
| `Validator.AcceptedVolumeInRange` | internal/validator/shipping.go:60-71 | whenever the dimensions are accepted, 0 < `CalculateVolume` <= 15000 |
| `Validator.VolumeCapInclusive` | internal/validator/shipping.go:60-63 | with positive sides, a volume of exactly 15000 passes and a larger one fails with VolumeTooLarge(volume) |
| `Validator.WeightAndDimensionExamples` | internal/validator/shipping.go:41-71 | zero weight is rejected; all-zero or all-negative sides report the length error; 25×20×30 passes; 30×30×20 fails with volume 18000; the volume of -10×-5×-2 is -100 |
| `Pricing.DistanceCost` | internal/service/shipping.go:141-147 | at least 1000; at least 1100 once the distance reaches 1000; exactly 1000 iff the distance is below 1000 |
| `Pricing.Distance` | internal/service/shipping.go:132-135 | the signed difference made non-negative is the absolute difference of the two numbers |
| `Pricing.CalculateBaseCost` | internal/service/shipping.go:117-148 | the base cost is never below the flat 1000 |
| `Pricing.BaseCostFallback` | internal/service/shipping.go:123-129 | if either normalized code does not read as a number, the base cost is exactly 1000 and no error arises |
| `Pricing.BaseCostByDistance` | internal/service/shipping.go:132-147 | when both codes read as numbers at distance d: 1000 if d < 1000, else 1000 + d/10 |
| `Pricing.BaseCostSymmetric` | internal/service/shipping.go:132-135 | swapping origin and destination does not change the base cost |
| `Pricing.BaseCostIgnoresSeparators` | internal/service/shipping.go:119-120 | hyphens and spaces in either code do not change the base cost |
| `Pricing.DistanceCostStep` | internal/service/shipping.go:145-147 | beyond 1000, each further 1000 units of distance add 100 cents, i.e. 10% of the flat base cost |
| `Pricing.DistanceCostMonotone` | internal/service/shipping.go:141-147 | the base cost never decreases as the distance grows |
| `Pricing.BaseCostOfNumbers` | internal/service/shipping.go:119-147 | codes written as plain numbers are priced by the distance between those numbers |
| `Pricing.SameRegionExample` | internal/service/shipping.go:141-143 | "1414" and "1428" (14 apart) cost exactly 1000 |
| `Pricing.OriginRegionParses` | internal/service/shipping.go:119-123 | "01000-000" reads as 1000000 |
| `Pricing.DestinationRegionParses` | internal/service/shipping.go:119-124 | "20000-000" reads as 20000000 |
| `Pricing.DifferentRegionsExample` | internal/service/shipping.go:117-148 | "01000-000" to "20000-000" costs 1901000, above the flat base |
| `Pricing.FallbackExamples` | internal/service/shipping.go:123-129 | "abc"/"def" and ""/"" cost exactly 1000 |
| `Pricing.CalculateShippingDetails` | internal/service/shipping.go:151-187 | keeps the base cost unchanged; the weight surcharge is base × 0.10 × (weight / 0.5) = 0.2 × base × weight and the volume surcharge base × 0.05 × (volume / 1000) = 0.00005 × base × volume for all inputs; the total is base plus the three surcharges; express takes 1 day and standard 2; standard has no express surcharge |
| `Pricing.TotalCostClosedForm` | internal/service/shipping.go:153-171 | total = base × (1 + weight/5 + volume/20000), times 1.5 for express (`ClosedFormTotal`) |
| `Pricing.SurchargeRates` | internal/service/shipping.go:153-159 | each further 0.5 kg adds 10% of the base cost; each further 1000 cm³ adds 5% |
| `Pricing.ExpressIsHalfAgainStandard` | internal/service/shipping.go:161-171 | express and standard have the same weight and volume surcharges; the express surcharge is half the standard total, so the express total is 1.5 times it |
| `Pricing.SurchargesNonNegative` | internal/service/shipping.go:153-171 | with non-negative inputs no surcharge is negative and the total is at least the base |
| `Pricing.ClosedFormAboveBase` | internal/service/shipping.go:153-171 | for a positive base, a positive weight and a non-negative volume, the closed-form total is strictly above the base cost in either tier |
| `Pricing.DetailsExamples` | internal/service/shipping.go:151-231 | 0.5 kg and 1000 cm³ on base 1000 give 100 + 50, total 1150; 1 kg express gives 200 + 50 + 625 = 1875; all zero express gives zeros and 1 day; 0.5 kg and 240 cm³ quote 1112 |
| `Pricing.BuildResponse` | internal/service/shipping.go:190-231 | exactly two options, standard then express; the services list matches them; standard = base + weight + volume surcharges; express = 1.5 × standard; times "2 dias" and "1 dia"; the quoted cost and time are those of the requested tier |
| `Pricing.DayCountText` | internal/service/shipping.go:202-221 | the leading digits of the text read back as the day count, and the rest is " dias" or " dia" |
| `Pricing.ResponseIgnoresStoredTotals` | internal/service/shipping.go:191-195 | the response depends only on base cost and the two surcharges, not on the stored express surcharge, total or days |
| `Pricing.ShippingCostMatchesTotal` | internal/service/shipping.go:162-201 | for a breakdown from `CalculateShippingDetails`, the quoted cost equals its total in both tiers |
| `Pricing.CategoryPrefix` | internal/service/shipping.go:60-88 | the prefix is "invalid ", then the field's label, then ": " |
| `Pricing.ErrorMessage` | internal/service/shipping.go:60-88 | the `%w` wrapping: the text is the category prefix followed by the whole of the cause's message |
| `Pricing.ErrorMessageNamesCategory` | internal/service/shipping.go:54-89 | the error text starts with "invalid <field>: " for its own field and with no other field's prefix |
| `Pricing.CalculateShipping` | internal/service/shipping.go:49-114 | succeeds iff both codes, the weight and the dimensions are valid |
| `Pricing.CalculateShippingReportsFirstFailure` | internal/service/shipping.go:53-89 | on failure the error is the first failing check in the order origin, destination, weight, dimensions, wrapped with that field; on success every check passed |
| `Pricing.ValidZipcodeParses` | internal/service/shipping.go:119-124 | a code that passes validation always reads as a number |
| `Pricing.AcceptedRequestUsesDistance` | internal/service/shipping.go:92 | for an accepted request the fallback never applies: the base cost is the distance cost of the two parsed codes |
| `Pricing.QuoteOfAcceptedRequest` | internal/service/shipping.go:91-114 | an accepted request succeeds with exactly `BuildResponse` of `CalculateShippingDetails` on its base cost, weight, volume and tier; its time is "1 dia" or "2 dias", it lists both services and two options, and its quote is the closed-form total for its tier, strictly above 1000 |

## Left out

- Logging, metrics and tracing around the calculation (the logger calls in `CalculateShipping`, the telemetry package) are side effects on external collaborators, so they are omitted.
- HTTP handling, JSON encoding and decoding, and process start-up and shutdown are not part of this model.
- IEEE-754 behaviour is not modelled: rounding in the surcharge products, NaN passing the `<=` guards, and infinities. Arithmetic is exact over `real`.
- Validator.Message: the `%.2f` rendering of a volume is not modelled. The function takes the formatter as a parameter, `formatVolume`.
- Numerals.ParseDecimal models `strconv.ParseFloat` only on its digit-run inputs. Signs, decimal points, exponents, "Inf"/"NaN", hexadecimal forms, precision loss on long inputs, and the range error ParseFloat returns for digit runs too large for float64 (about 310 digits or more, which the source prices at the flat 1000 while the model prices them by distance) are not modelled. Any other string is treated as a parse failure. Only validated digit strings reach it from `CalculateShipping`.
- Validator.ValidateZipcode works on ASCII characters only. Go's `len` counts UTF-8 bytes, and `unicode.IsDigit` also accepts non-ASCII digits. Such digits would pass validation, fail to parse, and fall back to the flat base cost. The model does not capture that path.
- The pluralization in the express delivery-time text is kept as written, with the constant 1 day. Its "dias" branch can never be taken.
