/** `check_plan`: validate an assembled plan against the total budget with five
    rules run in a fixed order. The first rule short-circuits; each later rule
    is wrapped so that an exception inside it becomes one more violation and
    the remaining rules still run. */
module Checker {
  import opened Text
  import opened Json
  import opened Host
  import opened Centroid

  datatype Rule = JsonFormat | Budget | AttractionsCount | HotelDistance | FlightCompleteness

  datatype Status = Passed | Failed

  /** The messages, as structured values rather than formatted text. */
  datatype Message =
    | InvalidFormat
    | FormatOk
    | BudgetExceeded(total: real, budget: real, flightCost: real, hotelCost: real, other: real)
    | CostExceeds(total: real, budget: real)
    | CostWithin(total: real, budget: real)
    | NoAttractions(dayIndex: JsonValue)
    | TooManyAttractions(dayIndex: JsonValue, count: nat)
    | AllDaysWithinLimit(dayCount: nat)
    | MissingLocation(hotel: JsonValue)
    | NoCentroid(hotel: JsonValue)
    | TooFar(hotel: JsonValue, distance: real)
    | AllHotelsNear(hotelCount: nat)
    | MissingOutbound
    | MissingReturn
    | BothFlights
    | Issues(issues: seq<Message>)
    | RuleFailed(error: Error)

  datatype Violation = Violation(rule: Rule, message: Message)

  datatype Detail = Detail(rule: Rule, status: Status, message: Message)

  datatype CheckResult = CheckResult(passed: bool, violations: seq<Violation>, details: seq<Detail>)

  /** What the body of one `try` block did: it finished with some violation
      messages appended and a detail, or it raised after appending some. */
  datatype Outcome =
    | Done(emitted: seq<Message>, status: Status, message: Message)
    | Raised(emitted: seq<Message>, error: Error)

  function Tag(rule: Rule, ms: seq<Message>): (r: seq<Violation>)
    ensures |r| == |ms|
  {
    if |ms| == 0 then [] else [Violation(rule, ms[0])] + Tag(rule, ms[1..])
  }

  lemma {:induction false} TagShape(rule: Rule, ms: seq<Message>)
    ensures forall k :: 0 <= k < |ms| ==> Tag(rule, ms)[k] == Violation(rule, ms[k])
  {
    if |ms| > 0 {
      TagShape(rule, ms[1..]);
    }
  }

  /** The `except` around a rule: an exception adds one violation and a failed
      detail, both tagged with the rule; what the body appended stays. */
  function Contain(rule: Rule, o: Outcome): (r: (seq<Violation>, Detail))
    ensures r.1.rule == rule
  {
    match o
    case Done(ms, status, m) => (Tag(rule, ms), Detail(rule, status, m))
    case Raised(ms, e) => (Tag(rule, ms) + [Violation(rule, RuleFailed(e))], Detail(rule, Failed, RuleFailed(e)))
  }

  /** Everything a contained rule records is tagged with the rule; what its
      body appended comes first, then, if it raised, one failure violation,
      and its detail is failed. */
  lemma ContainShape(rule: Rule, o: Outcome)
    ensures var r := Contain(rule, o);
      && (forall k :: 0 <= k < |r.0| ==> r.0[k].rule == rule)
      && r.0[..|o.emitted|] == Tag(rule, o.emitted)
      && (o.Raised? ==>
            |r.0| == |o.emitted| + 1 && r.0[|o.emitted|] == Violation(rule, RuleFailed(o.error)) &&
            r.1 == Detail(rule, Failed, RuleFailed(o.error)))
      && (o.Done? ==> |r.0| == |o.emitted| && r.1 == Detail(rule, o.status, o.message))
  {
    TagShape(rule, o.emitted);
  }

  /** `d.get(key)` on a dict already known to be one. */
  function At(v: JsonValue, key: string, default: JsonValue): JsonValue
    requires v.JObject?
  {
    Lookup(v.fields, key).GetOr(default)
  }

  // ----------------------------------------------------------------- budget

  /** The price of the first recommended flight of one leg, 0 when the leg or
      its list is missing or falsy. A truthy leg that is not a dict raises
      `AttributeError`; a first flight that is not a dict, too; a price that is
      not a number makes `+=` raise `TypeError`. */
  function LegPrice(flights: JsonValue, leg: string): (r: Result<real>)
    requires flights.JObject?
    ensures !Truthy(At(flights, leg, JNull)) ==> r == Ok(0.0)
    ensures Truthy(At(flights, leg, JNull)) && !At(flights, leg, JNull).JObject? ==> r == Err(AttributeError)
  {
    var v := At(flights, leg, JNull);
    if !Truthy(v) then Ok(0.0)
    else if !v.JObject? then Err(AttributeError)
    else
      var rf := At(v, "recommended_flights", JNull);
      if !Truthy(rf) then Ok(0.0)
      else
        var first :- First(rf);
        var price :- Get(first, "price", JNum(0.0));
        match AsNumber(price)
        case None => Err(TypeError)
        case Some(p) => Ok(p)
  }

  /** `flight_total`. */
  function FlightTotal(flights: JsonValue): Result<real>
    requires flights.JObject?
  {
    var o :- LegPrice(flights, "outbound");
    var r :- LegPrice(flights, "return");
    Ok(o + r)
  }

  /** `[hotel.get("total_price", 0) for hotel in hs]`. */
  function TotalPrices(hs: seq<JsonValue>): (r: Result<seq<JsonValue>>)
    ensures r.Ok? ==> |r.value| == |hs|
    ensures r.Err? <==> exists k :: 0 <= k < |hs| && !hs[k].JObject?
    ensures r.Err? ==> r.error == AttributeError
    ensures r.Ok? ==> forall k :: 0 <= k < |hs| ==> r.value[k] == At(hs[k], "total_price", JNum(0.0))
  {
    if |hs| == 0 then Ok([])
    else if !hs[0].JObject? then Err(AttributeError)
    else
      var rest := TotalPrices(hs[1..]);
      assert forall k :: 0 < k < |hs| ==> hs[k] == hs[1..][k - 1];
      match rest
      case Err(e) => Err(e)
      case Ok(ps) => Ok([At(hs[0], "total_price", JNum(0.0))] + ps)
  }

  /** `sum(xs)`: raises `TypeError` at the first value that is not a number. */
  function SumNumbers(xs: seq<JsonValue>): (r: Result<real>)
    ensures r.Err? <==> exists k :: 0 <= k < |xs| && AsNumber(xs[k]).None?
    ensures r.Err? ==> r.error == TypeError
    decreases |xs|
  {
    if |xs| == 0 then Ok(0.0)
    else
      var init := SumNumbers(xs[..|xs| - 1]);
      assert forall k :: 0 <= k < |xs| - 1 ==> xs[k] == xs[..|xs| - 1][k];
      match init
      case Err(e) => Err(e)
      case Ok(s) =>
        match AsNumber(xs[|xs| - 1])
        case None => Err(TypeError)
        case Some(x) => Ok(s + x)
  }

  /** `hotel_total`: the mean `total_price` of the recommended hotels, with a
      missing price counted as 0; 0 when the list is missing or falsy. */
  function HotelTotal(hotels: JsonValue): (r: Result<real>)
    requires hotels.JObject?
    ensures !Truthy(At(hotels, "recommended_hotels", JNull)) ==> r == Ok(0.0)
    ensures var hs := At(hotels, "recommended_hotels", JNull);
      r.Ok? && Truthy(hs) ==>
        hs.JArray? && |hs.items| > 0 && TotalPrices(hs.items).Ok? &&
        SumNumbers(TotalPrices(hs.items).value).Ok? &&
        r.value == SumNumbers(TotalPrices(hs.items).value).value / (|hs.items| as real)
  {
    var rh := At(hotels, "recommended_hotels", JNull);
    if !Truthy(rh) then Ok(0.0)
    else
      match Len(rh)
      case Err(e) => Err(e)
      case Ok(n) =>
        match Iter(rh)
        case Err(e) => Err(e)
        case Ok(hs) =>
          match TotalPrices(hs)
          case Err(e) => Err(e)
          case Ok(prices) =>
            match SumNumbers(prices)
            case Err(e) => Err(e)
            case Ok(total) =>
              if |prices| == 0 then Ok(0.0)
              else
                Ok(total / (|prices| as real))
  }

  /** A truthy `recommended_hotels` that is not a list makes `hotel_total`
      raise: `len` rejects numbers and bools, and the elements of a str or a
      dict are strs, which have no `.get`. */
  lemma NonListHotelsRaise(hotels: JsonValue)
    requires hotels.JObject?
    requires Truthy(At(hotels, "recommended_hotels", JNull)) && !At(hotels, "recommended_hotels", JNull).JArray?
    ensures HotelTotal(hotels).Err?
  {
    var rh := At(hotels, "recommended_hotels", JNull);
    if rh.JStr? || rh.JObject? {
      var hs := Iter(rh).value;
      assert |hs| > 0 && hs[0].JStr?;
      assert TotalPrices(hs).Err?;
    }
  }

  /** The budget rule: flights plus hotels plus 50% of both for other
      expenses, compared with `>` against the budget. */
  function BudgetRule(hotels: JsonValue, flights: JsonValue, budget: real): Outcome
    requires hotels.JObject? && flights.JObject?
  {
    match FlightTotal(flights)
    case Err(e) => Raised([], e)
    case Ok(f) =>
      match HotelTotal(hotels)
      case Err(e) => Raised([], e)
      case Ok(h) =>
        var other := (f + h) * 0.5;
        var total := f + h + other;
        if total > budget then Done([BudgetExceeded(total, budget, f, h, other)], Failed, CostExceeds(total, budget))
        else Done([], Passed, CostWithin(total, budget))
  }

  // ------------------------------------------------------------ attractions

  /** The `day_index` of a day and its number of attractions. `len` raises
      `TypeError` on a block that is None or a number. */
  function DayCount(day: JsonValue): (r: Result<(JsonValue, nat)>)
    ensures !day.JObject? ==> r == Err(AttributeError)
  {
    if !day.JObject? then Err(AttributeError)
    else
      var m :- Len(At(day, "morning", JArray([])));
      var a :- Len(At(day, "afternoon", JArray([])));
      var e :- Len(At(day, "evening", JArray([])));
      Ok((At(day, "day_index", JNum(0.0)), m + a + e))
  }

  /** The violation a day with `n` attractions gives, if any. */
  function DayIssue(dayIndex: JsonValue, n: nat): (r: seq<Message>)
    ensures |r| <= 1
    ensures |r| == 1 <==> n < 1 || n > 5
  {
    if n < 1 then [NoAttractions(dayIndex)]
    else if n > 5 then [TooManyAttractions(dayIndex, n)]
    else []
  }

  /** The loop over the days: the issues found so far, and the exception that
      ended it, if one did. */
  function DaysScan(acc: seq<Message>, days: seq<JsonValue>): (r: (seq<Message>, Option<Error>))
    decreases |days|
  {
    if |days| == 0 then (acc, None)
    else
      match DayCount(days[0])
      case Err(e) => (acc, Some(e))
      case Ok((idx, n)) => DaysScan(acc + DayIssue(idx, n), days[1..])
  }

  /** The attractions rule: one violation per day with no attraction or more
      than five. */
  function AttractionsRule(itinerary: JsonValue): Outcome
    requires itinerary.JObject?
  {
    match Iter(At(itinerary, "days", JArray([])))
    case Err(e) => Raised([], e)
    case Ok(days) =>
      var (issues, err) := DaysScan([], days);
      if err.Some? then Raised(issues, err.value)
      else if |issues| > 0 then Done(issues, Failed, Issues(issues))
      else Done([], Passed, AllDaysWithinLimit(|days|))
  }

  // --------------------------------------------------------- hotel distance

  /** One hotel, yielding at most one violation message. A present,
      non-None `distance_km` is used as it is; otherwise a missing lat or lng
      is a violation, then an absent centroid, then a distance of 10 km or
      more; the distance tool raises ValueError where `haversine` rejects a
      coordinate. `centroid` is what the centroid tool gives for the itinerary; it
      is consulted only on the path that calls the tool, and the tool is
      deterministic, so every such call gives this same value. */
  function HotelStep(env: Env, centroid: Result<Option<(real, real)>>, hotel: JsonValue): (r: Result<Option<Message>>)
    ensures !hotel.JObject? ==> r == Err(AttributeError)
  {
    if !hotel.JObject? then Err(AttributeError)
    else
      var name := At(hotel, "name", JStr("Unknown Hotel"));
      var precomputed := Lookup(hotel.fields, "distance_km");
      if precomputed.Some? && !precomputed.value.JNull? then
        match AsNumber(precomputed.value)
        case None => Err(TypeError)
        case Some(d) => Ok(if d >= 10.0 then Some(TooFar(name, d)) else None)
      else
        var lat, lng := At(hotel, "lat", JNull), At(hotel, "lng", JNull);
        if lat.JNull? || lng.JNull? then Ok(Some(MissingLocation(name)))
        else
          match centroid
          case Err(e) => Err(e)
          case Ok(None) => Ok(Some(NoCentroid(name)))
          case Ok(Some((clat, clng))) =>
            match (env.toolFloat(lat), env.toolFloat(lng))
            case (Some(hlat), Some(hlng)) =>
              var d := env.dist(hlat, hlng, clat, clng);
              if d.None? then Err(ValueError(BadCoordinate))
              else Ok(if d.value >= 10.0 then Some(TooFar(name, d.value)) else None)
            case _ => Err(ValueError(BadToolArgument))
  }

  function HotelsScan(env: Env, centroid: Result<Option<(real, real)>>, acc: seq<Message>, hotels: seq<JsonValue>): (r: (seq<Message>, Option<Error>))
    decreases |hotels|
  {
    if |hotels| == 0 then (acc, None)
    else
      match HotelStep(env, centroid, hotels[0])
      case Err(e) => (acc, Some(e))
      case Ok(m) => HotelsScan(env, centroid, acc + (if m.Some? then [m.value] else []), hotels[1..])
  }

  /** The hotel distance rule, given what the centroid tool gives for the
      itinerary. */
  function HotelRule(env: Env, centroid: Result<Option<(real, real)>>, hotels: JsonValue): Outcome
    requires hotels.JObject?
  {
    match Iter(At(hotels, "recommended_hotels", JArray([])))
    case Err(e) => Raised([], e)
    case Ok(hs) =>
      var (issues, err) := HotelsScan(env, centroid, [], hs);
      if err.Some? then Raised(issues, err.value)
      else if |issues| > 0 then Done(issues, Failed, Issues(issues))
      else Done([], Passed, AllHotelsNear(|hs|))
  }

  // ------------------------------------------------------ flight completeness

  /** `flights.get(leg) and flights[leg].get("recommended_flights")`, tested
      for truth. */
  function HasLeg(flights: JsonValue, leg: string): (r: Result<bool>)
    requires flights.JObject?
    ensures r.Err? <==> Truthy(At(flights, leg, JNull)) && !At(flights, leg, JNull).JObject?
    ensures r.Ok? ==>
      (r.value <==> Truthy(At(flights, leg, JNull)) && Truthy(At(At(flights, leg, JNull), "recommended_flights", JNull)))
  {
    var v := At(flights, leg, JNull);
    if !Truthy(v) then Ok(false)
    else
      var rf :- Get(v, "recommended_flights", JNull);
      Ok(Truthy(rf))
  }

  /** The flight completeness rule: both legs are evaluated before any
      violation is added. */
  function FlightRule(flights: JsonValue): Outcome
    requires flights.JObject?
  {
    match HasLeg(flights, "outbound")
    case Err(e) => Raised([], e)
    case Ok(o) =>
      match HasLeg(flights, "return")
      case Err(e) => Raised([], e)
      case Ok(r) =>
        var issues := (if o then [] else [MissingOutbound]) + (if r then [] else [MissingReturn]);
        if |issues| > 0 then Done(issues, Failed, Issues(issues)) else Done([], Passed, BothFlights)
  }

  // ------------------------------------------------------------- the whole

  predicate WellFormed(itinerary: JsonValue, hotels: JsonValue, flights: JsonValue) {
    itinerary.JObject? && hotels.JObject? && flights.JObject?
  }

  /** The result past the format rule, from the outcomes of the four
      contained rules in the order they run. */
  function Assemble(budget: Outcome, attractions: Outcome, hotels: Outcome, flights: Outcome): CheckResult {
    var b := Contain(Budget, budget);
    var a := Contain(AttractionsCount, attractions);
    var h := Contain(HotelDistance, hotels);
    var f := Contain(FlightCompleteness, flights);
    var vs := b.0 + a.0 + h.0 + f.0;
    CheckResult(|vs| == 0, vs, [Detail(JsonFormat, Passed, FormatOk), b.1, a.1, h.1, f.1])
  }

  /** What the centroid tool gives for the itinerary `check_plan` received. */
  function PlanCentroid(env: Env, itinerary: JsonValue): Result<Option<(real, real)>> {
    ItineraryCentroid(env, env.dumps(itinerary))
  }

  /** `check_plan(itinerary, hotels, flights, total_budget)`. */
  function CheckPlanSpec(env: Env, itinerary: JsonValue, hotels: JsonValue, flights: JsonValue, budget: real): CheckResult {
    if !WellFormed(itinerary, hotels, flights) then
      CheckResult(false, [Violation(JsonFormat, InvalidFormat)], [Detail(JsonFormat, Failed, InvalidFormat)])
    else
      Assemble(BudgetRule(hotels, flights, budget), AttractionsRule(itinerary),
               HotelRule(env, PlanCentroid(env, itinerary), hotels), FlightRule(flights))
  }

  // ------------------------------------------------------------ properties

  /** A plan part that is not a dict fails the format rule alone: one
      violation, one detail, and no other rule runs. */
  lemma FormatShortCircuit(env: Env, itinerary: JsonValue, hotels: JsonValue, flights: JsonValue, budget: real)
    requires !WellFormed(itinerary, hotels, flights)
    ensures var r := CheckPlanSpec(env, itinerary, hotels, flights, budget);
      !r.passed && |r.violations| == 1 && r.violations[0].rule == JsonFormat &&
      |r.details| == 1 && r.details[0].rule == JsonFormat && r.details[0].status == Failed
  {
  }

  /** The verdict is true exactly when no violation was recorded. */
  lemma PassedIffNoViolations(env: Env, itinerary: JsonValue, hotels: JsonValue, flights: JsonValue, budget: real)
    ensures var r := CheckPlanSpec(env, itinerary, hotels, flights, budget);
      r.passed <==> |r.violations| == 0
  {
  }

  function RulesOf(ds: seq<Detail>): (r: seq<Rule>)
    ensures |r| == |ds| && forall k :: 0 <= k < |ds| ==> r[k] == ds[k].rule
  {
    if |ds| == 0 then [] else [ds[0].rule] + RulesOf(ds[1..])
  }

  /** Past the format rule there are exactly five details, one per rule, in
      the order the rules run. */
  lemma FiveDetailsInOrder(env: Env, itinerary: JsonValue, hotels: JsonValue, flights: JsonValue, budget: real)
    requires WellFormed(itinerary, hotels, flights)
    ensures var r := CheckPlanSpec(env, itinerary, hotels, flights, budget);
      RulesOf(r.details) == [JsonFormat, Budget, AttractionsCount, HotelDistance, FlightCompleteness] &&
      r.details[0].status == Passed
  {
    AssembleDetails(BudgetRule(hotels, flights, budget), AttractionsRule(itinerary),
                    HotelRule(env, PlanCentroid(env, itinerary), hotels), FlightRule(flights));
  }

  lemma AssembleDetails(budget: Outcome, attractions: Outcome, hotels: Outcome, flights: Outcome)
    ensures var ds := Assemble(budget, attractions, hotels, flights).details;
      RulesOf(ds) == [JsonFormat, Budget, AttractionsCount, HotelDistance, FlightCompleteness] &&
      ds[0].status == Passed
  {
    var ds := Assemble(budget, attractions, hotels, flights).details;
    var rs := RulesOf(ds);
    assert rs[0] == JsonFormat && rs[1] == Budget && rs[2] == AttractionsCount;
    assert rs[3] == HotelDistance && rs[4] == FlightCompleteness;
  }

  /** The violations of a rule. */
  function CountRule(vs: seq<Violation>, rule: Rule): (r: nat)
    ensures r <= |vs|
  {
    if |vs| == 0 then 0 else (if vs[0].rule == rule then 1 else 0) + CountRule(vs[1..], rule)
  }

  lemma {:induction false} CountRuleAppend(a: seq<Violation>, b: seq<Violation>, rule: Rule)
    ensures CountRule(a + b, rule) == CountRule(a, rule) + CountRule(b, rule)
  {
    if |a| == 0 {
      assert a + b == b;
    } else {
      assert (a + b)[1..] == a[1..] + b;
      CountRuleAppend(a[1..], b, rule);
    }
  }

  lemma {:induction false} CountRuleAll(vs: seq<Violation>, rule: Rule)
    ensures (forall k :: 0 <= k < |vs| ==> vs[k].rule == rule) ==> CountRule(vs, rule) == |vs|
    ensures (forall k :: 0 <= k < |vs| ==> vs[k].rule != rule) ==> CountRule(vs, rule) == 0
  {
    if |vs| > 0 {
      CountRuleAll(vs[1..], rule);
      assert forall k :: 0 < k < |vs| ==> vs[k] == vs[1..][k - 1];
    }
  }

  /** How many violations a contained rule contributes: what its body
      appended, plus one if it raised. */
  function Weight(o: Outcome): nat {
    |o.emitted| + (if o.Raised? then 1 else 0)
  }

  /** What a contained rule contributes to the count of `other`. */
  lemma ContainCount(rule: Rule, o: Outcome, other: Rule)
    ensures CountRule(Contain(rule, o).0, other) == if rule == other then Weight(o) else 0
  {
    ContainShape(rule, o);
    CountRuleAll(Contain(rule, o).0, other);
  }

  /** Past the format rule, each rule contributes its own violations and no
      other rule's: a rule that raises adds its one failure violation while
      every later rule still runs and reports. */
  lemma {:induction false} ViolationsPerRule(env: Env, itinerary: JsonValue, hotels: JsonValue, flights: JsonValue, budget: real, rule: Rule)
    requires WellFormed(itinerary, hotels, flights)
    ensures CountRule(CheckPlanSpec(env, itinerary, hotels, flights, budget).violations, rule) ==
      match rule
      case JsonFormat => 0
      case Budget => Weight(BudgetRule(hotels, flights, budget))
      case AttractionsCount => Weight(AttractionsRule(itinerary))
      case HotelDistance => Weight(HotelRule(env, PlanCentroid(env, itinerary), hotels))
      case FlightCompleteness => Weight(FlightRule(flights))
  {
    var bo, ao, ho, fo := BudgetRule(hotels, flights, budget), AttractionsRule(itinerary),
      HotelRule(env, PlanCentroid(env, itinerary), hotels), FlightRule(flights);
    assert CheckPlanSpec(env, itinerary, hotels, flights, budget).violations ==
      Contain(Budget, bo).0 + Contain(AttractionsCount, ao).0 + Contain(HotelDistance, ho).0 + Contain(FlightCompleteness, fo).0;
    FourRulesCount(bo, ao, ho, fo, rule);
  }

  /** The four contained rules after the format rule, in order, each count
      for their own rule only. */
  lemma FourRulesCount(bo: Outcome, ao: Outcome, ho: Outcome, fo: Outcome, rule: Rule)
    ensures CountRule(Contain(Budget, bo).0 + Contain(AttractionsCount, ao).0 + Contain(HotelDistance, ho).0 + Contain(FlightCompleteness, fo).0, rule) ==
      match rule
      case JsonFormat => 0
      case Budget => Weight(bo)
      case AttractionsCount => Weight(ao)
      case HotelDistance => Weight(ho)
      case FlightCompleteness => Weight(fo)
  {
    var b, a, h, f := Contain(Budget, bo), Contain(AttractionsCount, ao), Contain(HotelDistance, ho),
      Contain(FlightCompleteness, fo);
    CountRuleAppend(b.0 + a.0 + h.0, f.0, rule);
    CountRuleAppend(b.0 + a.0, h.0, rule);
    CountRuleAppend(b.0, a.0, rule);
    ContainCount(Budget, bo, rule);
    ContainCount(AttractionsCount, ao, rule);
    ContainCount(HotelDistance, ho, rule);
    ContainCount(FlightCompleteness, fo, rule);
  }

  /** The budget rule fails exactly when 1.5 times flights plus hotels
      exceeds the budget; equality passes. */
  lemma BudgetVerdict(hotels: JsonValue, flights: JsonValue, budget: real)
    requires hotels.JObject? && flights.JObject?
    requires FlightTotal(flights).Ok? && HotelTotal(hotels).Ok?
    ensures var o := BudgetRule(hotels, flights, budget);
      var cost := FlightTotal(flights).value + HotelTotal(hotels).value;
      o.Done? && (o.status == Failed <==> 3.0 * cost > 2.0 * budget) && (|o.emitted| == 1 <==> o.status == Failed) &&
      (o.status == Passed ==> o.emitted == [])
  {
  }

  /** A leg whose recommended flights form a non-empty list with a dict in
      front contributes that dict's numeric `price`, or 0 without one. */
  lemma LegPriceOfFirstFlight(flights: JsonValue, leg: string)
    requires flights.JObject?
    requires var v := At(flights, leg, JNull);
      v.JObject? && At(v, "recommended_flights", JNull).JArray? &&
      |At(v, "recommended_flights", JNull).items| > 0 && At(v, "recommended_flights", JNull).items[0].JObject?
    ensures var first := At(At(flights, leg, JNull), "recommended_flights", JNull).items[0];
      (!HasKey(first.fields, "price") ==> LegPrice(flights, leg) == Ok(0.0)) &&
      (HasKey(first.fields, "price") && AsNumber(At(first, "price", JNull)).Some? ==>
        LegPrice(flights, leg) == Ok(AsNumber(At(first, "price", JNull)).value))
  {
  }

  /** An empty list of recommended flights counts as a missing leg, and adds
      nothing to the price. */
  lemma EmptyLegIsMissing(flights: JsonValue, leg: string)
    requires flights.JObject? && At(flights, leg, JNull).JObject?
    requires At(At(flights, leg, JNull), "recommended_flights", JNull) == JArray([])
    ensures HasLeg(flights, leg) == Ok(false) && LegPrice(flights, leg) == Ok(0.0)
  {
  }

  /** Days whose attraction count is outside 1..5, among those the loop
      reads. */
  function OutOfRange(days: seq<JsonValue>): nat {
    if |days| == 0 then 0
    else
      match DayCount(days[0])
      case Err(_) => 0
      case Ok((_, n)) => (if n < 1 || n > 5 then 1 else 0) + OutOfRange(days[1..])
  }

  /** The day loop only ever appends to the issues it started with. */
  lemma {:induction false} DaysScanExtends(acc: seq<Message>, days: seq<JsonValue>)
    ensures acc <= DaysScan(acc, days).0
    decreases |days|
  {
    if |days| > 0 {
      match DayCount(days[0])
      case Err(_) =>
      case Ok((idx, n)) =>
        var next := acc + DayIssue(idx, n);
        DaysScanExtends(next, days[1..]);
        assert acc <= next;
    }
  }

  /** The day loop adds one issue per out-of-range day it reads, each one
      naming no attractions or too many; a loop that ends normally read
      every day. */
  lemma {:induction false} DaysScanCounts(acc: seq<Message>, days: seq<JsonValue>)
    ensures var r := DaysScan(acc, days);
      |r.0| == |acc| + OutOfRange(days) &&
      (forall k :: |acc| <= k < |r.0| ==> r.0[k].NoAttractions? || r.0[k].TooManyAttractions?) &&
      (r.1.None? ==> forall k :: 0 <= k < |days| ==> DayCount(days[k]).Ok?)
    decreases |days|
  {
    if |days| > 0 {
      match DayCount(days[0])
      case Err(_) =>
      case Ok((idx, n)) =>
        var next := acc + DayIssue(idx, n);
        var r := DaysScan(next, days[1..]);
        DaysScanCounts(next, days[1..]);
        DaysScanExtends(next, days[1..]);
        forall k | |acc| <= k < |next|
          ensures r.0[k].NoAttractions? || r.0[k].TooManyAttractions?
        {
          assert r.0[k] == DayIssue(idx, n)[k - |acc|];
        }
        assert forall k :: 0 < k < |days| ==> days[k] == days[1..][k - 1];
    }
  }

  /** Each hotel yields at most one issue. */
  lemma {:induction false} HotelsScanAtMostOne(env: Env, centroid: Result<Option<(real, real)>>, acc: seq<Message>, hotels: seq<JsonValue>)
    ensures |HotelsScan(env, centroid, acc, hotels).0| <= |acc| + |hotels|
    decreases |hotels|
  {
    if |hotels| > 0 {
      match HotelStep(env, centroid, hotels[0])
      case Err(_) =>
      case Ok(m) => HotelsScanAtMostOne(env, centroid, acc + (if m.Some? then [m.value] else []), hotels[1..]);
    }
  }

  /** One more hotel after a scan that raised nothing adds exactly what its
      own check gives: its one message, nothing, or its exception. */
  lemma {:induction false} HotelsScanSnoc(env: Env, centroid: Result<Option<(real, real)>>, acc: seq<Message>, hotels: seq<JsonValue>, hotel: JsonValue)
    requires HotelsScan(env, centroid, acc, hotels).1.None?
    ensures var issues := HotelsScan(env, centroid, acc, hotels).0;
      HotelsScan(env, centroid, acc, hotels + [hotel]) ==
        match HotelStep(env, centroid, hotel)
        case Err(e) => (issues, Some(e))
        case Ok(m) => (issues + (if m.Some? then [m.value] else []), None)
    decreases |hotels|
  {
    if |hotels| == 0 {
      assert hotels + [hotel] == [hotel];
      assert [hotel][1..] == [];
    } else {
      assert (hotels + [hotel])[0] == hotels[0];
      assert (hotels + [hotel])[1..] == hotels[1..] + [hotel];
      match HotelStep(env, centroid, hotels[0])
      case Err(_) =>
      case Ok(m) => HotelsScanSnoc(env, centroid, acc + (if m.Some? then [m.value] else []), hotels[1..], hotel);
    }
  }

  /** A hotel with a non-None `distance_km` is judged on that number alone:
      the itinerary, its centroid and the distance tool play no part. */
  lemma PrecomputedDistance(env: Env, env2: Env, centroid: Result<Option<(real, real)>>, centroid2: Result<Option<(real, real)>>, hotel: JsonValue)
    requires hotel.JObject?
    requires Lookup(hotel.fields, "distance_km").Some? && !Lookup(hotel.fields, "distance_km").value.JNull?
    ensures HotelStep(env, centroid, hotel) == HotelStep(env2, centroid2, hotel)
  {
  }

  /** Without a precomputed distance, a missing lat or lng is reported
      before any centroid is computed. */
  lemma MissingLocationFirst(env: Env, centroid: Result<Option<(real, real)>>, hotel: JsonValue)
    requires hotel.JObject?
    requires Lookup(hotel.fields, "distance_km").None? || Lookup(hotel.fields, "distance_km").value.JNull?
    requires At(hotel, "lat", JNull).JNull? || At(hotel, "lng", JNull).JNull?
    ensures HotelStep(env, centroid, hotel) == Ok(Some(MissingLocation(At(hotel, "name", JStr("Unknown Hotel")))))
  {
  }

  /** With a location but no centroid, the hotel is reported as unverifiable. */
  lemma AbsentCentroidReported(env: Env, hotel: JsonValue)
    requires hotel.JObject?
    requires Lookup(hotel.fields, "distance_km").None? || Lookup(hotel.fields, "distance_km").value.JNull?
    requires !At(hotel, "lat", JNull).JNull? && !At(hotel, "lng", JNull).JNull?
    ensures HotelStep(env, Ok(None), hotel) == Ok(Some(NoCentroid(At(hotel, "name", JStr("Unknown Hotel")))))
  {
  }

  /** With a location and a centroid, the check raises exactly when the
      distance tool rejects the coordinates, and otherwise reports the hotel
      exactly when its distance to the centroid is 10 km or more. */
  lemma DistanceLimit(env: Env, hotel: JsonValue, clat: real, clng: real)
    requires hotel.JObject?
    requires Lookup(hotel.fields, "distance_km").None? || Lookup(hotel.fields, "distance_km").value.JNull?
    requires env.toolFloat(At(hotel, "lat", JNull)).Some? && env.toolFloat(At(hotel, "lng", JNull)).Some?
    requires !At(hotel, "lat", JNull).JNull? && !At(hotel, "lng", JNull).JNull?
    ensures var d := env.dist(env.toolFloat(At(hotel, "lat", JNull)).value, env.toolFloat(At(hotel, "lng", JNull)).value, clat, clng);
      && (d.None? <==> HotelStep(env, Ok(Some((clat, clng))), hotel) == Err(ValueError(BadCoordinate)))
      && (d.Some? ==>
            HotelStep(env, Ok(Some((clat, clng))), hotel).Ok? &&
            (HotelStep(env, Ok(Some((clat, clng))), hotel).value.Some? <==> d.value >= 10.0))
  {
  }

  /** Flight completeness reports each missing leg once, independently. */
  lemma FlightViolations(flights: JsonValue)
    requires flights.JObject? && HasLeg(flights, "outbound").Ok? && HasLeg(flights, "return").Ok?
    ensures var o := FlightRule(flights);
      o.Done? &&
      |o.emitted| == (if HasLeg(flights, "outbound").value then 0 else 1) + (if HasLeg(flights, "return").value then 0 else 1) &&
      (MissingOutbound in o.emitted <==> !HasLeg(flights, "outbound").value) &&
      (MissingReturn in o.emitted <==> !HasLeg(flights, "return").value)
  {
  }

  // ------------------------------------------------------------- the loops

  lemma {:induction false} TagAppend(rule: Rule, ms: seq<Message>, m: Message)
    ensures Tag(rule, ms + [m]) == Tag(rule, ms) + [Violation(rule, m)]
  {
    if |ms| > 0 {
      assert (ms + [m])[1..] == ms[1..] + [m];
      TagAppend(rule, ms[1..], m);
    }
  }

  /** Appending one issue to the list of issues appends its violation. */
  lemma RecordIssue(rule: Rule, violations: seq<Violation>, ms: seq<Message>, m: Message)
    ensures violations + Tag(rule, ms) + [Violation(rule, m)] == violations + Tag(rule, ms + [m])
  {
    TagAppend(rule, ms, m);
  }

  /** The day scan stops at a day whose count raises. */
  lemma DaysScanStop(acc: seq<Message>, ds: seq<JsonValue>, i: nat)
    requires i < |ds| && DayCount(ds[i]).Err?
    ensures DaysScan(acc, ds[i..]) == (acc, Some(DayCount(ds[i]).error))
  {
    assert ds[i..][0] == ds[i];
  }

  /** One normal step of the day scan at position `i`: the issues collected
      before day `i` grow by that day's issue. */
  lemma DaysScanNext(acc: seq<Message>, ds: seq<JsonValue>, i: nat, dayIndex: JsonValue, n: nat, next: seq<Message>)
    requires i < |ds| && DayCount(ds[i]) == Ok((dayIndex, n))
    requires next == acc + DayIssue(dayIndex, n)
    ensures DaysScan(acc, ds[i..]) == DaysScan(next, ds[i + 1..])
  {
    assert ds[i..][1..] == ds[i + 1..];
    assert ds[i..][0] == ds[i];
  }

  /** How the attractions rule is recorded once the day scan has ended. */
  lemma AttractionsRecorded(itinerary: JsonValue, ds: seq<JsonValue>, issues: seq<Message>, err: Option<Error>)
    requires itinerary.JObject? && Iter(At(itinerary, "days", JArray([]))) == Ok(ds)
    requires DaysScan([], ds) == (issues, err)
    ensures err.Some? ==>
      Contain(AttractionsCount, AttractionsRule(itinerary)) ==
        (Tag(AttractionsCount, issues) + [Violation(AttractionsCount, RuleFailed(err.value))],
         Detail(AttractionsCount, Failed, RuleFailed(err.value)))
    ensures err.None? && |issues| > 0 ==>
      Contain(AttractionsCount, AttractionsRule(itinerary)) ==
        (Tag(AttractionsCount, issues), Detail(AttractionsCount, Failed, Issues(issues)))
    ensures err.None? && |issues| == 0 ==>
      Contain(AttractionsCount, AttractionsRule(itinerary)) ==
        (Tag(AttractionsCount, issues), Detail(AttractionsCount, Passed, AllDaysWithinLimit(|ds|)))
  {
  }

  /** The day loop of the attractions rule, appending to `violations` as it
      goes; it stops at the first day whose count raises. */
  method ScanDays(ds: seq<JsonValue>, violations: seq<Violation>) returns (vs: seq<Violation>, issues: seq<Message>, err: Option<Error>)
    ensures (issues, err) == DaysScan([], ds)
    ensures err.None? ==> vs == violations + Tag(AttractionsCount, issues)
    ensures err.Some? ==> vs == violations + Tag(AttractionsCount, issues) + [Violation(AttractionsCount, RuleFailed(err.value))]
  {
    issues := [];
    vs := violations;
    var i := 0;
    while i < |ds|
      invariant 0 <= i <= |ds|
      invariant DaysScan(issues, ds[i..]) == DaysScan([], ds)
      invariant vs == violations + Tag(AttractionsCount, issues)
    {
      var count := DayCount(ds[i]);
      if count.Err? {
        DaysScanStop(issues, ds, i);
        vs := vs + [Violation(AttractionsCount, RuleFailed(count.error))];
        return vs, issues, Some(count.error);
      }
      var dayIndex, n := count.value.0, count.value.1;
      var issue: Option<Message> := None;
      if n < 1 {
        issue := Some(NoAttractions(dayIndex));
      } else if n > 5 {
        issue := Some(TooManyAttractions(dayIndex, n));
      }
      DaysScanNext(issues, ds, i, dayIndex, n, issues + DayIssue(dayIndex, n));
      if issue.Some? {
        assert DayIssue(dayIndex, n) == [issue.value];
        RecordIssue(AttractionsCount, violations, issues, issue.value);
        vs := vs + [Violation(AttractionsCount, issue.value)];
        issues := issues + [issue.value];
      } else {
        assert issues + DayIssue(dayIndex, n) == issues;
      }
      i := i + 1;
    }
    assert ds[i..] == [];
    err := None;
  }

  /** The attractions rule as the checker runs it. */
  method CheckAttractions(itinerary: JsonValue, violations: seq<Violation>) returns (vs: seq<Violation>, detail: Detail)
    requires itinerary.JObject?
    ensures vs == violations + Contain(AttractionsCount, AttractionsRule(itinerary)).0
    ensures detail == Contain(AttractionsCount, AttractionsRule(itinerary)).1
  {
    var days := Iter(At(itinerary, "days", JArray([])));
    if days.Err? {
      return violations + [Violation(AttractionsCount, RuleFailed(days.error))], Detail(AttractionsCount, Failed, RuleFailed(days.error));
    }
    var issues, err;
    vs, issues, err := ScanDays(days.value, violations);
    AttractionsRecorded(itinerary, days.value, issues, err);
    if err.Some? {
      detail := Detail(AttractionsCount, Failed, RuleFailed(err.value));
    } else if |issues| > 0 {
      detail := Detail(AttractionsCount, Failed, Issues(issues));
    } else {
      detail := Detail(AttractionsCount, Passed, AllDaysWithinLimit(|days.value|));
    }
  }

  /** The hotel scan stops at a hotel whose step raises. */
  lemma HotelsScanStop(env: Env, centroid: Result<Option<(real, real)>>, acc: seq<Message>, hs: seq<JsonValue>, i: nat)
    requires i < |hs| && HotelStep(env, centroid, hs[i]).Err?
    ensures HotelsScan(env, centroid, acc, hs[i..]) == (acc, Some(HotelStep(env, centroid, hs[i]).error))
  {
    assert hs[i..][0] == hs[i];
  }

  /** One normal step of the hotel scan at position `i`. */
  lemma HotelsScanNext(env: Env, centroid: Result<Option<(real, real)>>, acc: seq<Message>, hs: seq<JsonValue>, i: nat, m: Option<Message>, next: seq<Message>)
    requires i < |hs| && HotelStep(env, centroid, hs[i]) == Ok(m)
    requires next == acc + (if m.Some? then [m.value] else [])
    ensures HotelsScan(env, centroid, acc, hs[i..]) == HotelsScan(env, centroid, next, hs[i + 1..])
  {
    assert hs[i..][1..] == hs[i + 1..];
    assert hs[i..][0] == hs[i];
  }

  /** How the hotel distance rule is recorded once the hotel scan has ended. */
  lemma HotelsRecorded(env: Env, centroid: Result<Option<(real, real)>>, hotels: JsonValue, hs: seq<JsonValue>, issues: seq<Message>, err: Option<Error>)
    requires hotels.JObject? && Iter(At(hotels, "recommended_hotels", JArray([]))) == Ok(hs)
    requires HotelsScan(env, centroid, [], hs) == (issues, err)
    ensures err.Some? ==>
      Contain(HotelDistance, HotelRule(env, centroid, hotels)) ==
        (Tag(HotelDistance, issues) + [Violation(HotelDistance, RuleFailed(err.value))],
         Detail(HotelDistance, Failed, RuleFailed(err.value)))
    ensures err.None? && |issues| > 0 ==>
      Contain(HotelDistance, HotelRule(env, centroid, hotels)) ==
        (Tag(HotelDistance, issues), Detail(HotelDistance, Failed, Issues(issues)))
    ensures err.None? && |issues| == 0 ==>
      Contain(HotelDistance, HotelRule(env, centroid, hotels)) ==
        (Tag(HotelDistance, issues), Detail(HotelDistance, Passed, AllHotelsNear(|hs|)))
  {
  }

  /** The hotel loop of the distance rule, appending to `violations` as it
      goes; the centroid is recomputed for every hotel that needs it. */
  method ScanHotels(env: Env, centroid: Result<Option<(real, real)>>, hs: seq<JsonValue>, violations: seq<Violation>) returns (vs: seq<Violation>, issues: seq<Message>, err: Option<Error>)
    ensures (issues, err) == HotelsScan(env, centroid, [], hs)
    ensures err.None? ==> vs == violations + Tag(HotelDistance, issues)
    ensures err.Some? ==> vs == violations + Tag(HotelDistance, issues) + [Violation(HotelDistance, RuleFailed(err.value))]
  {
    issues := [];
    vs := violations;
    var i := 0;
    while i < |hs|
      invariant 0 <= i <= |hs|
      invariant HotelsScan(env, centroid, issues, hs[i..]) == HotelsScan(env, centroid, [], hs)
      invariant vs == violations + Tag(HotelDistance, issues)
    {
      var step := HotelStepOnce(env, centroid, hs[i]);
      if step.Err? {
        HotelsScanStop(env, centroid, issues, hs, i);
        vs := vs + [Violation(HotelDistance, RuleFailed(step.error))];
        return vs, issues, Some(step.error);
      }
      HotelsScanNext(env, centroid, issues, hs, i, step.value, issues + (if step.value.Some? then [step.value.value] else []));
      if step.value.Some? {
        RecordIssue(HotelDistance, violations, issues, step.value.value);
        vs := vs + [Violation(HotelDistance, step.value.value)];
        issues := issues + [step.value.value];
      } else {
        assert issues + [] == issues;
      }
      i := i + 1;
    }
    assert hs[i..] == [];
    err := None;
  }

  /** The hotel distance rule as the checker runs it. */
  method CheckHotels(env: Env, centroid: Result<Option<(real, real)>>, hotels: JsonValue, violations: seq<Violation>) returns (vs: seq<Violation>, detail: Detail)
    requires hotels.JObject?
    ensures vs == violations + Contain(HotelDistance, HotelRule(env, centroid, hotels)).0
    ensures detail == Contain(HotelDistance, HotelRule(env, centroid, hotels)).1
  {
    var recommended := Iter(At(hotels, "recommended_hotels", JArray([])));
    if recommended.Err? {
      return violations + [Violation(HotelDistance, RuleFailed(recommended.error))], Detail(HotelDistance, Failed, RuleFailed(recommended.error));
    }
    var issues, err;
    vs, issues, err := ScanHotels(env, centroid, recommended.value, violations);
    HotelsRecorded(env, centroid, hotels, recommended.value, issues, err);
    if err.Some? {
      detail := Detail(HotelDistance, Failed, RuleFailed(err.value));
    } else if |issues| > 0 {
      detail := Detail(HotelDistance, Failed, Issues(issues));
    } else {
      detail := Detail(HotelDistance, Passed, AllHotelsNear(|recommended.value|));
    }
  }

  /** The body of the hotel loop. */
  method HotelStepOnce(env: Env, centroid: Result<Option<(real, real)>>, hotel: JsonValue) returns (r: Result<Option<Message>>)
    ensures r == HotelStep(env, centroid, hotel)
  {
    if !hotel.JObject? {
      return Err(AttributeError);
    }
    var name := At(hotel, "name", JStr("Unknown Hotel"));
    var distance: real;
    var precomputed := Lookup(hotel.fields, "distance_km");
    if precomputed.Some? && !precomputed.value.JNull? {
      var d := AsNumber(precomputed.value);
      if d.None? {
        return Err(TypeError);
      }
      distance := d.value;
    } else {
      var lat, lng := At(hotel, "lat", JNull), At(hotel, "lng", JNull);
      if lat.JNull? || lng.JNull? {
        return Ok(Some(MissingLocation(name)));
      }
      if centroid.Err? {
        return Err(centroid.error);
      }
      if centroid.value.None? {
        return Ok(Some(NoCentroid(name)));
      }
      var hlat, hlng := env.toolFloat(lat), env.toolFloat(lng);
      if hlat.None? || hlng.None? {
        return Err(ValueError(BadToolArgument));
      }
      var km := env.dist(hlat.value, hlng.value, centroid.value.value.0, centroid.value.value.1);
      if km.None? {
        return Err(ValueError(BadCoordinate));
      }
      distance := km.value;
    }
    if distance >= 10.0 {
      r := Ok(Some(TooFar(name, distance)));
    } else {
      r := Ok(None);
    }
  }

  /** `check_plan`, appending violations and details as the source does. The
      centroid tool is run once, before the hotel loop; it is deterministic,
      and its result (or its exception) reaches exactly the hotels whose
      check calls it. */
  method CheckPlan(env: Env, itinerary: JsonValue, hotels: JsonValue, flights: JsonValue, budget: real) returns (r: CheckResult)
    ensures r == CheckPlanSpec(env, itinerary, hotels, flights, budget)
  {
    var violations: seq<Violation> := [];
    var details: seq<Detail> := [];
    if !itinerary.JObject? || !hotels.JObject? || !flights.JObject? {
      violations := violations + [Violation(JsonFormat, InvalidFormat)];
      details := details + [Detail(JsonFormat, Failed, InvalidFormat)];
      return CheckResult(false, violations, details);
    }
    var centroid := ComputeItineraryCentroid(env, env.dumps(itinerary));
    r := CheckRules(env, itinerary, hotels, flights, budget, centroid);
  }

  /** The four contained rules, appending to `violations` and `details`. */
  method CheckRules(env: Env, itinerary: JsonValue, hotels: JsonValue, flights: JsonValue, budget: real,
                    centroid: Result<Option<(real, real)>>) returns (r: CheckResult)
    requires WellFormed(itinerary, hotels, flights)
    ensures r == Assemble(BudgetRule(hotels, flights, budget), AttractionsRule(itinerary),
                          HotelRule(env, centroid, hotels), FlightRule(flights))
  {
    ghost var a := Contain(AttractionsCount, AttractionsRule(itinerary));
    ghost var h := Contain(HotelDistance, HotelRule(env, centroid, hotels));
    var b := Contain(Budget, BudgetRule(hotels, flights, budget));
    var violations := b.0;
    var details := [Detail(JsonFormat, Passed, FormatOk), b.1];
    var detail;
    violations, detail := CheckAttractions(itinerary, violations);
    assert violations == b.0 + a.0 && detail == a.1;
    details := details + [detail];
    violations, detail := CheckHotels(env, centroid, hotels, violations);
    assert violations == b.0 + a.0 + h.0 && detail == h.1;
    details := details + [detail];
    var f := Contain(FlightCompleteness, FlightRule(flights));
    violations := violations + f.0;
    details := details + [f.1];
    r := CheckResult(|violations| == 0, violations, details);
  }
}
