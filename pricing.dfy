/**
 * The shipping quote service: a base cost from the numeric distance between
 * two postal codes, linear weight and volume surcharges, a 50% express
 * surcharge, and a response that always lists both service tiers.
 * Amounts are in cents; floating-point arithmetic is modelled by `real`.
 */
module Pricing {
  import opened Outcomes
  import opened Numerals
  import opened Validator
  import opened Model

  const BaseCostCents: real := 1000.0
  const WeightSurchargeRate: real := 0.10
  const WeightUnit: real := 0.5
  const VolumeSurchargeRate: real := 0.05
  const VolumeUnit: real := 1000.0
  const ExpressSurchargeRate: real := 0.50
  const StandardDeliveryDays: nat := 2
  const ExpressDeliveryDays: nat := 1

  // ---------------------------------------------------------------------------
  // Base cost
  // ---------------------------------------------------------------------------

  /** Base cost for a distance between postal-code numbers: flat below 1000, then linear. */
  function DistanceCost(distance: real): (r: real)
    requires distance >= 0.0
    ensures r >= BaseCostCents
    ensures distance >= 1000.0 ==> r >= 1100.0
    ensures r == BaseCostCents <==> distance < 1000.0
  {
    if distance < 1000.0 then BaseCostCents
    else BaseCostCents * (1.0 + distance / 10000.0)
  }

  /** |a - b| as the service computes it: subtract, then negate a negative difference. */
  function Distance(a: nat, b: nat): (d: real)
    ensures d >= 0.0
    ensures d == (if a >= b then a - b else b - a) as real
  {
    var difference := a as real - b as real;
    if difference < 0.0 then -difference else difference
  }

  /**
   * The base cost for a pair of postal codes. A code that does not read as a
   * number after normalization falls back to the flat base cost; no error.
   */
  function CalculateBaseCost(originZipcode: string, destinationZipcode: string): (r: real)
    ensures r >= BaseCostCents
  {
    match (ParseDecimal(Normalize(originZipcode)), ParseDecimal(Normalize(destinationZipcode)))
    case (Some(origin), Some(destination)) => DistanceCost(Distance(origin, destination))
    case _ => BaseCostCents
  }

  lemma BaseCostFallback(originZipcode: string, destinationZipcode: string)
    requires !IsDigitRun(Normalize(originZipcode)) || !IsDigitRun(Normalize(destinationZipcode))
    ensures CalculateBaseCost(originZipcode, destinationZipcode) == BaseCostCents
  {
  }

  /** Both codes read as numbers: flat cost under 1000 apart, else 1000 plus a tenth of the distance. */
  lemma BaseCostByDistance(originZipcode: string, destinationZipcode: string)
    requires IsDigitRun(Normalize(originZipcode)) && IsDigitRun(Normalize(destinationZipcode))
    ensures
      var o := ParseDecimal(Normalize(originZipcode)).value;
      var d := ParseDecimal(Normalize(destinationZipcode)).value;
      var distance := if o >= d then o - d else d - o;
      CalculateBaseCost(originZipcode, destinationZipcode)
        == if distance < 1000 then BaseCostCents else BaseCostCents + distance as real / 10.0
  {
  }

  lemma BaseCostSymmetric(originZipcode: string, destinationZipcode: string)
    ensures CalculateBaseCost(originZipcode, destinationZipcode)
         == CalculateBaseCost(destinationZipcode, originZipcode)
  {
  }

  /** Hyphens and spaces in either code do not change the base cost. */
  lemma BaseCostIgnoresSeparators(originZipcode: string, destinationZipcode: string)
    ensures CalculateBaseCost(originZipcode, destinationZipcode)
         == CalculateBaseCost(Normalize(originZipcode), Normalize(destinationZipcode))
  {
    NormalizeIdempotent(originZipcode);
    NormalizeIdempotent(destinationZipcode);
  }

  /** Each further 1000 units of distance add 100 cents, i.e. 10% of the flat base cost. */
  lemma DistanceCostStep(distance: real)
    requires distance >= 1000.0
    ensures DistanceCost(distance + 1000.0) == DistanceCost(distance) + 0.10 * BaseCostCents
  {
  }

  lemma DistanceCostMonotone(near: real, far: real)
    requires 0.0 <= near <= far
    ensures DistanceCost(near) <= DistanceCost(far)
  {
  }

  // ---------------------------------------------------------------------------
  // Cost breakdown
  // ---------------------------------------------------------------------------

  /** The breakdown for a base cost, a weight (kg), a volume (cm³) and the tier flag. */
  function CalculateShippingDetails(baseCost: real, weight: real, volume: real, isExpress: bool): (d: Details)
    ensures d.baseCost == baseCost
    ensures d.totalCost == d.baseCost + d.weightSurcharge + d.volumeSurcharge + d.expressSurcharge
    ensures d.estimatedDays == if isExpress then ExpressDeliveryDays else StandardDeliveryDays
    ensures !isExpress ==> d.expressSurcharge == 0.0
    ensures d.weightSurcharge == 0.2 * baseCost * weight
    ensures d.volumeSurcharge == 0.00005 * baseCost * volume
  {
    var weightMultiplier := weight / WeightUnit;
    var weightSurcharge := baseCost * WeightSurchargeRate * weightMultiplier;
    var volumeMultiplier := volume / VolumeUnit;
    var volumeSurcharge := baseCost * VolumeSurchargeRate * volumeMultiplier;
    var subtotal := baseCost + weightSurcharge + volumeSurcharge;
    var expressSurcharge := if isExpress then subtotal * ExpressSurchargeRate else 0.0;
    var totalCost := subtotal + expressSurcharge;
    var estimatedDays := if isExpress then ExpressDeliveryDays else StandardDeliveryDays;
    Details(baseCost, weightSurcharge, volumeSurcharge, expressSurcharge, totalCost, estimatedDays)
  }

  /** Reference price: base × (1 + 0.2 per kg + 0.00005 per cm³), × 1.5 for express. */
  function ClosedFormTotal(baseCost: real, weight: real, volume: real, isExpress: bool): real {
    baseCost * (1.0 + weight / 5.0 + volume / 20000.0) * (if isExpress then 1.5 else 1.0)
  }

  lemma TotalCostClosedForm(baseCost: real, weight: real, volume: real, isExpress: bool)
    ensures CalculateShippingDetails(baseCost, weight, volume, isExpress).totalCost
         == ClosedFormTotal(baseCost, weight, volume, isExpress)
  {
  }

  /** Every extra 0.5 kg adds 10% of the base cost; every extra 1000 cm³ adds 5%. */
  lemma SurchargeRates(baseCost: real, weight: real, volume: real, isExpress: bool)
    ensures CalculateShippingDetails(baseCost, weight + 0.5, volume, isExpress).weightSurcharge
         == CalculateShippingDetails(baseCost, weight, volume, isExpress).weightSurcharge + 0.10 * baseCost
    ensures CalculateShippingDetails(baseCost, weight, volume + 1000.0, isExpress).volumeSurcharge
         == CalculateShippingDetails(baseCost, weight, volume, isExpress).volumeSurcharge + 0.05 * baseCost
  {
  }

  /**
   * Express and standard share base and surcharges; the express surcharge is
   * half the standard total, so the express total is 1.5 times it.
   */
  lemma ExpressIsHalfAgainStandard(baseCost: real, weight: real, volume: real)
    ensures
      var standard := CalculateShippingDetails(baseCost, weight, volume, false);
      var express := CalculateShippingDetails(baseCost, weight, volume, true);
      express.weightSurcharge == standard.weightSurcharge &&
      express.volumeSurcharge == standard.volumeSurcharge &&
      express.expressSurcharge == 0.5 * standard.totalCost &&
      express.totalCost == 1.5 * standard.totalCost
  {
  }

  /** With non-negative inputs no surcharge is negative, so the total never drops below the base. */
  lemma SurchargesNonNegative(baseCost: real, weight: real, volume: real, isExpress: bool)
    requires baseCost >= 0.0 && weight >= 0.0 && volume >= 0.0
    ensures
      var d := CalculateShippingDetails(baseCost, weight, volume, isExpress);
      d.weightSurcharge >= 0.0 && d.volumeSurcharge >= 0.0 && d.expressSurcharge >= 0.0 &&
      d.totalCost >= baseCost
  {
    var d := CalculateShippingDetails(baseCost, weight, volume, isExpress);
    assert d.weightSurcharge == (baseCost * 0.10) * (weight / 0.5);
    assert d.volumeSurcharge == (baseCost * 0.05) * (volume / 1000.0);
  }

  // ---------------------------------------------------------------------------
  // Response assembly
  // ---------------------------------------------------------------------------

  /** "%d dia" / "%d dias": the count reads back from the leading digits, followed by the day word. */
  function DayCountText(days: nat, plural: bool): (r: string)
    ensures var n := |DecimalString(days)|;
      n <= |r| && ParseDecimal(r[..n]) == Some(days) &&
      r[n..] == if plural then " dias" else " dia"
  {
    var digits := DecimalString(days);
    ParseDecimalOfDecimalString(days);
    var r := digits + if plural then " dias" else " dia";
    assert r[..|digits|] == digits;
    r
  }

  /**
   * The response for a breakdown. The standard cost is recomputed from base
   * and surcharges and the express cost from it; the stored express surcharge
   * and total are not read. Both options are always listed, standard first.
   */
  function BuildResponse(details: Details, isExpress: bool): (r: Response)
    ensures |r.shippingOptions| == 2
    ensures r.shippingOptions[0].service == "standard" && r.shippingOptions[1].service == "express"
    ensures r.availableServices == [r.shippingOptions[0].service, r.shippingOptions[1].service]
    ensures r.shippingOptions[0].cost == details.baseCost + details.weightSurcharge + details.volumeSurcharge
    ensures r.shippingOptions[1].cost == 1.5 * r.shippingOptions[0].cost
    ensures r.shippingOptions[0].time == "2 dias" && r.shippingOptions[1].time == "1 dia"
    ensures var chosen := if isExpress then 1 else 0;
      r.shippingCost == r.shippingOptions[chosen].cost &&
      r.estimatedDeliveryTime == r.shippingOptions[chosen].time
  {
    var standardCost := details.baseCost + details.weightSurcharge + details.volumeSurcharge;
    var expressCost := standardCost * (1.0 + ExpressSurchargeRate);
    var shippingCost := if isExpress then expressCost else standardCost;
    var estimatedTime :=
      if isExpress then DayCountText(ExpressDeliveryDays, ExpressDeliveryDays > 1)
      else DayCountText(StandardDeliveryDays, true);
    var shippingOptions := [
      ShippingOption("standard", standardCost, DayCountText(StandardDeliveryDays, true)),
      ShippingOption("express", expressCost, DayCountText(ExpressDeliveryDays, false))
    ];
    Response(shippingCost, estimatedTime, ["standard", "express"], shippingOptions)
  }

  /** The response depends only on base cost and the two surcharges, not on stored totals or days. */
  lemma ResponseIgnoresStoredTotals(d1: Details, d2: Details, isExpress: bool)
    requires d1.baseCost == d2.baseCost
    requires d1.weightSurcharge == d2.weightSurcharge
    requires d1.volumeSurcharge == d2.volumeSurcharge
    ensures BuildResponse(d1, isExpress) == BuildResponse(d2, isExpress)
  {
  }

  /** The two express paths agree: the quoted cost equals the breakdown's total. */
  lemma ShippingCostMatchesTotal(baseCost: real, weight: real, volume: real, isExpress: bool)
    ensures
      var d := CalculateShippingDetails(baseCost, weight, volume, isExpress);
      BuildResponse(d, isExpress).shippingCost == d.totalCost
  {
  }

  // ---------------------------------------------------------------------------
  // The whole calculation
  // ---------------------------------------------------------------------------

  /** Which request field a validation error is reported against. */
  datatype Category = OriginZipcodeParam | DestinationZipcodeParam | WeightParam | DimensionsParam {
    function Label(): string {
      match this
      case OriginZipcodeParam => "origin_zipcode"
      case DestinationZipcodeParam => "destination_zipcode"
      case WeightParam => "weight"
      case DimensionsParam => "dimensions"
    }
  }

  /** A validation error wrapped with the category it was found in. */
  datatype ShippingError = Invalid(category: Category, cause: ValidationError)

  /** "invalid <field>: ". */
  function CategoryPrefix(category: Category): (r: string)
    ensures "invalid " <= r && |r| == |"invalid "| + |category.Label()| + 2
    ensures r[8..|r| - 2] == category.Label() && r[|r| - 2..] == ": "
  {
    "invalid " + category.Label() + ": "
  }

  /** The caller-visible text: the category prefix followed by the whole of the cause's own message. */
  function ErrorMessage(e: ShippingError, formatVolume: real -> string): (r: string)
    ensures CategoryPrefix(e.category) <= r
    ensures r[|CategoryPrefix(e.category)|..] == Message(e.cause, formatVolume)
  {
    CategoryPrefix(e.category) + Message(e.cause, formatVolume)
  }

  /** The message names exactly one category: only the failing category's prefix starts it. */
  lemma ErrorMessageNamesCategory(e: ShippingError, formatVolume: real -> string, category: Category)
    ensures CategoryPrefix(category) <= ErrorMessage(e, formatVolume) <==> category == e.category
  {
    var m := ErrorMessage(e, formatVolume);
    var p := CategoryPrefix(category);
    var q := CategoryPrefix(e.category);
    if category != e.category {
      assert q <= m;
      assert p[8] != q[8] || p[9] != q[9];
    }
  }

  function Categorized(category: Category, outcome: Outcome<ValidationError>): Outcome<ShippingError> {
    match outcome
    case Pass => Pass
    case Fail(cause) => Fail(Invalid(category, cause))
  }

  /** The request checks, in the order they are made. */
  function RequestChecks(req: Request): seq<Outcome<ShippingError>> {
    var dims := req.dimensions;
    [ Categorized(OriginZipcodeParam, ValidateZipcode(req.originZipcode, "origin_zipcode")),
      Categorized(DestinationZipcodeParam, ValidateZipcode(req.destinationZipcode, "destination_zipcode")),
      Categorized(WeightParam, ValidateWeight(req.weight)),
      Categorized(DimensionsParam, ValidateDimensions(dims.length, dims.width, dims.height)) ]
  }

  /** A request every check accepts. */
  predicate WellFormed(req: Request) {
    var dims := req.dimensions;
    req.originZipcode != "" && IsZipcode(Normalize(req.originZipcode)) &&
    req.destinationZipcode != "" && IsZipcode(Normalize(req.destinationZipcode)) &&
    req.weight > 0.0 &&
    dims.length > 0.0 && dims.width > 0.0 && dims.height > 0.0 &&
    CalculateVolume(dims.length, dims.width, dims.height) <= MaxVolumeCm3
  }

  function CalculateShipping(req: Request): (r: Result<Response, ShippingError>)
    ensures r.Success? <==> WellFormed(req)
  {
    var dims := req.dimensions;
    match ValidateZipcode(req.originZipcode, "origin_zipcode")
    case Fail(e) => Failure(Invalid(OriginZipcodeParam, e))
    case Pass =>
      match ValidateZipcode(req.destinationZipcode, "destination_zipcode")
      case Fail(e) => Failure(Invalid(DestinationZipcodeParam, e))
      case Pass =>
        match ValidateWeight(req.weight)
        case Fail(e) => Failure(Invalid(WeightParam, e))
        case Pass =>
          var volume := CalculateVolume(dims.length, dims.width, dims.height);
          match ValidateDimensions(dims.length, dims.width, dims.height)
          case Fail(e) => Failure(Invalid(DimensionsParam, e))
          case Pass =>
            var baseCost := CalculateBaseCost(req.originZipcode, req.destinationZipcode);
            var details := CalculateShippingDetails(baseCost, req.weight, volume, req.isExpress);
            Success(BuildResponse(details, req.isExpress))
  }

  /**
   * Validation fails fast: the error returned is the one from the first
   * failing check in the order origin, destination, weight, dimensions.
   */
  lemma CalculateShippingReportsFirstFailure(req: Request)
    ensures match CalculateShipping(req)
      case Success(_) => FirstFailure(RequestChecks(req)) == Pass
      case Failure(e) => FirstFailure(RequestChecks(req)) == Fail(e)
  {
    var checks := RequestChecks(req);
    assert checks[1..] == [checks[1], checks[2], checks[3]];
    assert checks[1..][1..] == [checks[2], checks[3]];
    assert checks[1..][1..][1..] == [checks[3]];
    assert checks[1..][1..][1..][1..] == [];
  }

  /** A postal code that passes validation always reads as a number. */
  lemma ValidZipcodeParses(zipcode: string, fieldName: string)
    requires ValidateZipcode(zipcode, fieldName).Pass?
    ensures ParseDecimal(Normalize(zipcode)).Some?
  {
  }

  /** An accepted request is priced from the distance between its codes: the fallback never applies. */
  lemma AcceptedRequestUsesDistance(req: Request)
    requires WellFormed(req)
    ensures
      var o := ParseDecimal(Normalize(req.originZipcode));
      var d := ParseDecimal(Normalize(req.destinationZipcode));
      o.Some? && d.Some? &&
      CalculateBaseCost(req.originZipcode, req.destinationZipcode) == DistanceCost(Distance(o.value, d.value))
  {
  }

  /**
   * The quote for an accepted request is the closed-form total for its tier,
   * strictly above the flat base cost.
   */
  lemma QuoteOfAcceptedRequest(req: Request)
    requires WellFormed(req)
    ensures CalculateShipping(req).Success?
    ensures
      var dims := req.dimensions;
      var volume := CalculateVolume(dims.length, dims.width, dims.height);
      var baseCost := CalculateBaseCost(req.originZipcode, req.destinationZipcode);
      CalculateShipping(req).value
        == BuildResponse(CalculateShippingDetails(baseCost, req.weight, volume, req.isExpress), req.isExpress)
    ensures
      var response := CalculateShipping(req).value;
      response.estimatedDeliveryTime == (if req.isExpress then "1 dia" else "2 dias") &&
      response.availableServices == ["standard", "express"] &&
      |response.shippingOptions| == 2
    ensures
      var dims := req.dimensions;
      var volume := CalculateVolume(dims.length, dims.width, dims.height);
      var baseCost := CalculateBaseCost(req.originZipcode, req.destinationZipcode);
      var quote := CalculateShipping(req).value.shippingCost;
      quote == ClosedFormTotal(baseCost, req.weight, volume, req.isExpress)
    ensures CalculateShipping(req).value.shippingCost > BaseCostCents
  {
    var dims := req.dimensions;
    var volume := CalculateVolume(dims.length, dims.width, dims.height);
    var baseCost := CalculateBaseCost(req.originZipcode, req.destinationZipcode);
    var details := CalculateShippingDetails(baseCost, req.weight, volume, req.isExpress);
    assert CalculateShipping(req) == Success(BuildResponse(details, req.isExpress));
    ShippingCostMatchesTotal(baseCost, req.weight, volume, req.isExpress);
    assert CalculateShipping(req).value.shippingCost == details.totalCost;
    TotalCostClosedForm(baseCost, req.weight, volume, req.isExpress);
    AcceptedVolumeInRange(dims.length, dims.width, dims.height);
    ClosedFormAboveBase(baseCost, req.weight, volume, req.isExpress);
  }

  /** A positive weight puts the price strictly above the base cost, in either tier. */
  lemma ClosedFormAboveBase(baseCost: real, weight: real, volume: real, isExpress: bool)
    requires baseCost > 0.0 && weight > 0.0 && volume >= 0.0
    ensures ClosedFormTotal(baseCost, weight, volume, isExpress) > baseCost
  {
    var factor := 1.0 + weight / 5.0 + volume / 20000.0;
    var tier := if isExpress then 1.5 else 1.0;
    assert baseCost * factor > baseCost by {
      assert baseCost * factor - baseCost == baseCost * (factor - 1.0);
    }
    assert baseCost * factor * tier >= baseCost * factor by {
      assert baseCost * factor * tier - baseCost * factor == (baseCost * factor) * (tier - 1.0);
    }
  }

  /** Codes written as plain numbers are priced by the distance between those numbers. */
  lemma BaseCostOfNumbers(origin: nat, destination: nat)
    ensures CalculateBaseCost(DecimalString(origin), DecimalString(destination))
         == DistanceCost(Distance(origin, destination))
  {
    NormalizeSeparatorFree(DecimalString(origin));
    NormalizeSeparatorFree(DecimalString(destination));
    ParseDecimalOfDecimalString(origin);
    ParseDecimalOfDecimalString(destination);
  }

  /** Codes 14 apart cost the flat base. */
  lemma SameRegionExample()
    ensures CalculateBaseCost("1414", "1428") == BaseCostCents
  {
    assert DecimalString(1414) == "1414";
    assert DecimalString(1428) == "1428";
    BaseCostOfNumbers(1414, 1428);
  }

  lemma RendersMillion()
    ensures DecimalString(1000000) == "1000000"
  {
  }

  lemma RendersTwentyMillion()
    ensures DecimalString(20000000) == "20000000"
  {
  }

  lemma OriginRegionParses()
    ensures ParseDecimal(Normalize("01000" + "-" + "000")) == Some(1000000)
  {
    RendersMillion();
    NormalizeAroundHyphen("01000", "000");
    assert "01000" + "000" == "0" + DecimalString(1000000);
    ParseDecimalLeadingZero(DecimalString(1000000));
    ParseDecimalOfDecimalString(1000000);
  }

  lemma DestinationRegionParses()
    ensures ParseDecimal(Normalize("20000" + "-" + "000")) == Some(20000000)
  {
    RendersTwentyMillion();
    NormalizeAroundHyphen("20000", "000");
    assert "20000" + "000" == DecimalString(20000000);
    ParseDecimalOfDecimalString(20000000);
  }

  /** "01000-000" and "20000-000" are 19000000 apart: 1000 × (1 + 19000000 / 10000). */
  lemma DifferentRegionsExample()
    ensures CalculateBaseCost("01000" + "-" + "000", "20000" + "-" + "000") == 1901000.0
  {
    OriginRegionParses();
    DestinationRegionParses();
  }

  /** Codes that do not read as numbers fall back to the flat base, without an error. */
  lemma FallbackExamples()
    ensures CalculateBaseCost("abc", "def") == BaseCostCents
    ensures CalculateBaseCost("", "") == BaseCostCents
  {
    assert !IsDigitRun(Normalize("abc")) by {
      RemoveAllAbsent("abc", '-');
      RemoveAllAbsent("abc", ' ');
      assert !IsAsciiDigit("abc"[0]);
    }
    BaseCostFallback("abc", "def");
    BaseCostFallback("", "");
  }

  lemma DetailsExamples()
    ensures CalculateShippingDetails(1000.0, 0.5, 1000.0, false)
         == Details(1000.0, 100.0, 50.0, 0.0, 1150.0, 2)
    ensures CalculateShippingDetails(1000.0, 1.0, 1000.0, true)
         == Details(1000.0, 200.0, 50.0, 625.0, 1875.0, 1)
    ensures CalculateShippingDetails(0.0, 0.0, 0.0, true) == Details(0.0, 0.0, 0.0, 0.0, 0.0, 1)
    ensures BuildResponse(CalculateShippingDetails(1000.0, 0.5, 240.0, false), false).shippingCost == 1112.0
  {
  }
}
