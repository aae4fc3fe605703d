/**
 * The smart-quote service: a deterministic local estimator for a freight
 * quote, and the wrapper that asks the remote model first and falls back to
 * the estimator on every failure.
 */
module GeminiService {
  import opened JsBuiltins

  /** What the calculator sends: every field is the raw text of a form input. */
  datatype QuoteRequest = QuoteRequest(
    origin: string,
    destination: string,
    cargoType: string,
    weight: string,
    date: string)

  /** The vehicle classes the estimator recommends, smallest first. */
  datatype Vehicle = SuzukiRaviPickup | Shehzore | Mazda | TenWheelerRigid | TwentyTwoWheelerTrailer
  {
    /** The text the quote shows for this vehicle; kept to document the display labels, no property depends on it. */
    function Label(): string
    {
      match this
      case SuzukiRaviPickup => "Suzuki Ravi / Pickup"
      case Shehzore => "Shehzore (10ft)"
      case Mazda => "Mazda (16ft)"
      case TenWheelerRigid => "10-Wheeler Rigid Truck"
      case TwentyTwoWheelerTrailer => "22-Wheeler Trailer"
    }

    /** Position in the size order. */
    function Rank(): nat
    {
      match this
      case SuzukiRaviPickup => 0
      case Shehzore => 1
      case Mazda => 2
      case TenWheelerRigid => 3
      case TwentyTwoWheelerTrailer => 4
    }
  }

  datatype Demand = HighDemand | Stable
  {
    /** The text the quote shows for this market trend; kept to document the display labels, no property depends on it. */
    function Label(): string
    {
      match this
      case HighDemand => "High Demand"
      case Stable => "Stable"
    }
  }

  /**
   * The numbers behind the fallback quote.  The source renders each of them
   * into a display string; the price range is the bid scaled by 0.92 and 1.08.
   */
  datatype LocalQuote = LocalQuote(
    priceLow: real,
    priceHigh: real,
    targetBid: int,
    fuelCost: int,
    demand: Demand,
    distanceKm: int,
    hours: int,
    routeAdvice: string,
    vehicle: Vehicle)

  const MinDistanceKm := 200
  const DistanceSpreadKm := 1300
  const SeedMultiplier := 53
  const HeavyAboveTons: real := 7.0
  const HeavyRatePerKm := 290
  const LightRatePerKm := 145
  const HighDemandAboveKm := 900
  const AverageSpeedKmh: real := 45.0
  const BufferHours: real := 3.0
  const RouteAdvice: string := "Advised to use N-5 for heavy cargo or M-2 for time-critical electronics."

  // ---------------------------------------------------------------------
  // The fallback estimator
  // ---------------------------------------------------------------------

  /** `parseFloat(weight) || 1`: NaN and zero both become one ton. */
  function WeightTons(weight: string): (tons: real)
    ensures tons != 0.0
    ensures ParseFloat(weight).None? ==> tons == 1.0
    ensures ParseFloat(weight).Some? && ParseFloat(weight).value != 0.0 ==> tons == ParseFloat(weight).value
    ensures ParseFloat(weight) == Some(0.0) ==> tons == 1.0
  {
    match ParseFloat(weight)
    case None => 1.0
    case Some(w) => if w == 0.0 then 1.0 else w
  }

  /** A place name contributes the length of its lower-case form to the distance seed. */
  function SeedLength(place: string): nat
  {
    |LowerCase(place)|
  }

  /** The pseudo-distance between two places, between 200 and 1499 km. */
  function DistanceKm(origin: string, destination: string): (km: int)
    ensures MinDistanceKm <= km < MinDistanceKm + DistanceSpreadKm
  {
    MinDistanceKm + ((SeedLength(origin) + SeedLength(destination)) * SeedMultiplier) % DistanceSpreadKm
  }

  function RatePerKm(tons: real): int
  {
    if tons > HeavyAboveTons then HeavyRatePerKm else LightRatePerKm
  }

  /** `Math.round(distance * rate)`; both factors are integers. */
  function TargetBid(distanceKm: int, tons: real): int
  {
    MathRound((distanceKm * RatePerKm(tons)) as real)
  }

  /** The if-cascade of the source: each passed threshold overrides the previous choice. */
  function VehicleFor(tons: real): (v: Vehicle)
    ensures v == SuzukiRaviPickup <==> tons <= 1.5
    ensures v == Shehzore <==> 1.5 < tons <= 3.5
    ensures v == Mazda <==> 3.5 < tons <= 8.0
    ensures v == TenWheelerRigid <==> 8.0 < tons <= 25.0
    ensures v == TwentyTwoWheelerTrailer <==> 25.0 < tons
  {
    var v0 := SuzukiRaviPickup;
    var v1 := if tons > 1.5 then Shehzore else v0;
    var v2 := if tons > 3.5 then Mazda else v1;
    var v3 := if tons > 8.0 then TenWheelerRigid else v2;
    if tons > 25.0 then TwentyTwoWheelerTrailer else v3
  }

  function DemandFor(distanceKm: int): Demand
  {
    if distanceKm > HighDemandAboveKm then HighDemand else Stable
  }

  /** `Math.round(distance / 45 + 3)`: driving time plus a three-hour buffer. */
  function EstimatedHours(distanceKm: int): (h: int)
    ensures h as real - 0.5 <= distanceKm as real / AverageSpeedKmh + BufferHours < h as real + 0.5
  {
    MathRound(distanceKm as real / AverageSpeedKmh + BufferHours)
  }

  /** `Math.round(basePrice * 0.48)`. */
  function FuelCost(targetBid: int): (fuel: int)
    ensures fuel as real - 0.5 <= targetBid as real * 0.48 < fuel as real + 0.5
  {
    MathRound(targetBid as real * 0.48)
  }

  /** getFallbackQuote: the deterministic estimate from the request fields alone. */
  function FallbackQuote(request: QuoteRequest): (q: LocalQuote)
    ensures MinDistanceKm <= q.distanceKm < MinDistanceKm + DistanceSpreadKm
    ensures q.targetBid == q.distanceKm * RatePerKm(WeightTons(request.weight))
    ensures 0.0 < q.priceLow < q.targetBid as real < q.priceHigh
    ensures 0 < q.fuelCost < q.targetBid
    ensures q.demand == HighDemand <==> q.distanceKm > HighDemandAboveKm
    ensures 7 <= q.hours <= 36
    ensures q.vehicle == VehicleFor(WeightTons(request.weight))
  {
    var tons := WeightTons(request.weight);
    var distance := DistanceKm(request.origin, request.destination);
    var basePrice := TargetBid(distance, tons);
    HoursBounds(distance);
    LocalQuote(
      basePrice as real * 0.92,
      basePrice as real * 1.08,
      basePrice,
      FuelCost(basePrice),
      DemandFor(distance),
      distance,
      EstimatedHours(distance),
      RouteAdvice,
      VehicleFor(tons))
  }

  // ---------------------------------------------------------------------
  // Properties of the estimator
  // ---------------------------------------------------------------------

  /** Over the distances the estimator produces, the time lies between 7 and 36 hours. */
  lemma HoursBounds(distanceKm: int)
    requires MinDistanceKm <= distanceKm < MinDistanceKm + DistanceSpreadKm
    ensures 7 <= EstimatedHours(distanceKm) <= 36
  {
    var h := EstimatedHours(distanceKm);
    assert distanceKm as real / AverageSpeedKmh >= 200.0 / 45.0;
    assert distanceKm as real / AverageSpeedKmh <= 1499.0 / 45.0;
  }

  /** A longer distance never gives a shorter time. */
  lemma HoursMonotone(d1: int, d2: int)
    requires d1 <= d2
    ensures EstimatedHours(d1) <= EstimatedHours(d2)
  {
    assert d1 as real / AverageSpeedKmh <= d2 as real / AverageSpeedKmh;
    MathRoundMonotone(d1 as real / AverageSpeedKmh + BufferHours, d2 as real / AverageSpeedKmh + BufferHours);
  }

  /** Demand is high exactly past the threshold, so a longer distance never lowers it. */
  lemma DemandMonotone(d1: int, d2: int)
    requires d1 <= d2
    ensures DemandFor(d1) == HighDemand ==> DemandFor(d2) == HighDemand
    ensures DemandFor(d2) == Stable ==> DemandFor(d1) == Stable
    ensures DemandFor(d2) == HighDemand <==> d2 > HighDemandAboveKm
  {
  }

  /** The distance depends on the two places only through the sum of their seed lengths. */
  lemma DistanceBySeedSum(o1: string, d1: string, o2: string, d2: string)
    requires SeedLength(o1) + SeedLength(d1) == SeedLength(o2) + SeedLength(d2)
    ensures DistanceKm(o1, d1) == DistanceKm(o2, d2)
  {
  }

  /** Sums of seed lengths 1300 apart collide. */
  lemma DistancePeriodic(o1: string, d1: string, o2: string, d2: string)
    requires SeedLength(o2) + SeedLength(d2) == SeedLength(o1) + SeedLength(d1) + DistanceSpreadKm
    ensures DistanceKm(o1, d1) == DistanceKm(o2, d2)
  {
    var n := SeedLength(o1) + SeedLength(d1);
    assert (n + DistanceSpreadKm) * SeedMultiplier == n * SeedMultiplier + DistanceSpreadKm * SeedMultiplier;
  }

  /** The estimate reads only the origin and destination seed lengths and the parsed weight. */
  lemma {:induction false} FallbackDependsOnlyOnSeedAndWeight(r1: QuoteRequest, r2: QuoteRequest)
    requires SeedLength(r1.origin) + SeedLength(r1.destination) == SeedLength(r2.origin) + SeedLength(r2.destination)
    requires WeightTons(r1.weight) == WeightTons(r2.weight)
    ensures FallbackQuote(r1) == FallbackQuote(r2)
  {
    DistanceBySeedSum(r1.origin, r1.destination, r2.origin, r2.destination);
  }

  /** Cargo type and date never change the estimate. */
  lemma FallbackIgnoresCargoAndDate(request: QuoteRequest, cargoType: string, date: string)
    ensures FallbackQuote(request.(cargoType := cargoType, date := date)) == FallbackQuote(request)
  {
    FallbackDependsOnlyOnSeedAndWeight(request.(cargoType := cargoType, date := date), request);
  }

  /** The return trip gets the same estimate. */
  lemma FallbackSymmetric(request: QuoteRequest)
    ensures FallbackQuote(request.(origin := request.destination, destination := request.origin)) == FallbackQuote(request)
  {
    FallbackDependsOnlyOnSeedAndWeight(request.(origin := request.destination, destination := request.origin), request);
  }

  /** Writing the places with different ASCII capitalisation gives the same estimate. */
  lemma FallbackIgnoresAsciiCase(request: QuoteRequest, origin: string, destination: string)
    requires SameUpToAsciiCase(origin, request.origin) && SameUpToAsciiCase(destination, request.destination)
    ensures FallbackQuote(request.(origin := origin, destination := destination)) == FallbackQuote(request)
  {
    LowerCaseIgnoresAsciiCase(origin, request.origin);
    LowerCaseIgnoresAsciiCase(destination, request.destination);
    FallbackDependsOnlyOnSeedAndWeight(request.(origin := origin, destination := destination), request);
  }

  /** A weight that is not a number, or is zero, is priced and classed as one ton. */
  lemma UnparsedWeightIsOneTon(request: QuoteRequest)
    requires ParseFloat(request.weight).None? || ParseFloat(request.weight) == Some(0.0)
    ensures FallbackQuote(request) == FallbackQuote(request.(weight := "1"))
  {
    OneTon();
    FallbackDependsOnlyOnSeedAndWeight(request, request.(weight := "1"));
  }

  /** The text "1" is read as one ton. */
  lemma OneTon()
    ensures WeightTons("1") == 1.0
  {
    ParseFloatDecimal(1);
    assert DecimalString(1) == "1";
  }

  /** The heavy rate starts strictly above 7 tons, so a heavier load never gets a lower bid. */
  lemma TargetBidMonotoneInWeight(distanceKm: int, w1: real, w2: real)
    requires distanceKm >= 0 && w1 <= w2
    ensures TargetBid(distanceKm, w1) <= TargetBid(distanceKm, w2)
    ensures w1 <= HeavyAboveTons < w2 ==> TargetBid(distanceKm, w2) == 2 * TargetBid(distanceKm, w1)
  {
    assert distanceKm * LightRatePerKm <= distanceKm * HeavyRatePerKm;
  }

  /** At a fixed weight, a longer distance never gets a lower bid. */
  lemma TargetBidMonotoneInDistance(d1: int, d2: int, tons: real)
    requires d1 <= d2
    ensures TargetBid(d1, tons) <= TargetBid(d2, tons)
  {
    assert d1 * RatePerKm(tons) <= d2 * RatePerKm(tons);
  }

  /** A heavier load is never recommended a smaller vehicle. */
  lemma VehicleMonotone(w1: real, w2: real)
    requires w1 <= w2
    ensures VehicleFor(w1).Rank() <= VehicleFor(w2).Rank()
  {
  }

  /** Without a dotted capital I, the seed length is the name's own length. */
  lemma SeedLengthOfPlainName(place: string)
    requires DottedCapitalI !in place
    ensures SeedLength(place) == |place|
  {
    LowerCaseLength(place);
    assert multiset(place)[DottedCapitalI] == 0;
  }

  // ---------------------------------------------------------------------
  // getSmartQuote
  // ---------------------------------------------------------------------

  /** How the remote generateContent call ended: it threw, or it returned a response whose text may be missing. */
  datatype CallOutcome = Threw | Returned(text: Option<string>)

  /** The errors raised inside the try block. */
  datatype QuoteError = CallFailed | NoDataReceived | MalformedJson

  datatype Result<+T, +E> = Ok(value: T) | Err(error: E)

  /**
   * The try block: the call, the `if (!text) throw` check, and JSON.parse
   * whose value is cast to a quote without any check.  `parseJson` stands
   * for JSON.parse; a `J` can be any JSON value.
   */
  function RemoteAttempt<J>(call: CallOutcome, parseJson: string -> Option<J>): (r: Result<J, QuoteError>)
    ensures r.Ok? <==> call.Returned? && call.text.Some? && call.text.value != "" && parseJson(call.text.value).Some?
    ensures r.Ok? ==> r.value == parseJson(call.text.value).value
    ensures r == Err(NoDataReceived) <==> call.Returned? && (call.text.None? || call.text.value == "")
  {
    match call
    case Threw => Err(CallFailed)
    case Returned(text) =>
      if text.None? || text.value == "" then Err(NoDataReceived)
      else
        match parseJson(text.value)
        case None => Err(MalformedJson)
        case Some(json) => Ok(json)
  }

  /** What getSmartQuote resolves to: the model's parsed JSON, or the local estimate. */
  datatype Quote<J> = FromModel(json: J) | Fallback(local: LocalQuote)

  /** getSmartQuote: every error of the try block is caught and replaced by the local estimate. */
  function SmartQuote<J>(request: QuoteRequest, call: CallOutcome, parseJson: string -> Option<J>): (q: Quote<J>)
    ensures q.FromModel? <==> RemoteAttempt(call, parseJson).Ok?
    ensures q.Fallback? ==> q.local == FallbackQuote(request)
  {
    match RemoteAttempt(call, parseJson)
    case Ok(json) => FromModel(json)
    case Err(_) => Fallback(FallbackQuote(request))
  }

  /** Each error the try block can raise ends in exactly the local estimate. */
  lemma SmartQuoteAbsorbsErrors<J>(request: QuoteRequest, call: CallOutcome, parseJson: string -> Option<J>, e: QuoteError)
    requires RemoteAttempt(call, parseJson) == Err(e)
    ensures SmartQuote(request, call, parseJson) == Fallback(FallbackQuote(request))
  {
  }

  /** A response with empty or missing text falls back, whatever the parser would do. */
  lemma EmptyResponseFallsBack<J>(request: QuoteRequest, text: Option<string>, parseJson: string -> Option<J>)
    requires text.None? || text == Some("")
    ensures SmartQuote(request, Returned(text), parseJson) == Fallback(FallbackQuote(request))
  {
  }

  /** When the model's answer is used, it is exactly what JSON.parse produced, unvalidated. */
  lemma ModelAnswerIsParsedText<J>(request: QuoteRequest, text: string, parseJson: string -> Option<J>)
    requires text != "" && parseJson(text).Some?
    ensures SmartQuote(request, Returned(Some(text)), parseJson) == FromModel(parseJson(text).value)
  {
  }
}

/** Worked examples of the fallback estimator on concrete requests. */
module GeminiServiceExamples {
  import opened JsBuiltins
  import opened GeminiService

  lemma KarachiLahoreDistance()
    ensures DistanceKm("Karachi", "Lahore") == 889
  {
  }

  lemma SukkurSialkotDistance()
    ensures DistanceKm("Sukkur", "Sialkot") == 889
  {
  }

  lemma ThreeTons()
    ensures WeightTons("3") == 3.0
  {
    ParseFloatDecimal(3);
    assert DecimalString(3) == "3";
  }

  /** The request of the service's own worked example: Karachi to Lahore, 3 tons. */
  lemma KarachiToLahore()
    ensures FallbackQuote(QuoteRequest("Karachi", "Lahore", "General Goods", "3", ""))
         == LocalQuote(118592.6, 139217.4, 128905, 61874, Stable, 889, 23, RouteAdvice, Shehzore)
  {
    KarachiLahoreDistance();
    ThreeTons();
    ThreeTonsOver889Km(QuoteRequest("Karachi", "Lahore", "General Goods", "3", ""));
  }

  /** Every request with an 889 km seed distance and a 3 ton load gets the same estimate. */
  lemma ThreeTonsOver889Km(request: QuoteRequest)
    requires DistanceKm(request.origin, request.destination) == 889 && WeightTons(request.weight) == 3.0
    ensures FallbackQuote(request)
         == LocalQuote(118592.6, 139217.4, 128905, 61874, Stable, 889, 23, RouteAdvice, Shehzore)
  {
    assert TargetBid(889, 3.0) == 128905;
    assert EstimatedHours(889) == 23;
    assert FuelCost(128905) == 61874;
  }

  /** Two different lanes whose names have equal total length get the same distance. */
  lemma DifferentLanesCollide()
    ensures DistanceKm("Karachi", "Lahore") == DistanceKm("Sukkur", "Sialkot")
  {
    KarachiLahoreDistance();
    SukkurSialkotDistance();
  }
}
