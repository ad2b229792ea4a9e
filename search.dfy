/** The list post-processing that follows the flight and hotel searches:
    one-way flight normalisation, round-trip pairing under the budget, and
    hotel filtering by total price with a cap of ten. The searches themselves
    are inputs: they supply the result dicts these loops walk. */
module Search {
  import opened Text
  import opened Json
  import opened Price

  // ------------------------------------------------------ the shared loop

  /** What the loop body decides for one element: skip it (`continue`), or
      append a record. */
  datatype Step = Skip | Keep(record: JsonValue)

  /** The records a step appends. */
  function Emit(s: Step): seq<JsonValue> {
    if s.Keep? then [s.record] else []
  }

  /** A loop that visits `xs` in order, appends to `acc` the record of every
      element `step` keeps, and stops at the first exception. */
  function Collect(acc: seq<JsonValue>, xs: seq<JsonValue>, step: JsonValue -> Result<Step>): (r: Result<seq<JsonValue>>)
    ensures r.Ok? ==> |acc| <= |r.value| <= |acc| + |xs| && r.value[..|acc|] == acc
    decreases |xs|
  {
    if |xs| == 0 then Ok(acc)
    else
      match step(xs[0])
      case Err(e) => Err(e)
      case Ok(Skip) => Collect(acc, xs[1..], step)
      case Ok(Keep(rec)) =>
        var r := Collect(acc + [rec], xs[1..], step);
        assert r.Ok? ==> r.value[..|acc|] == r.value[..|acc| + 1][..|acc|];
        r
  }

  /** Starting from `acc` only puts `acc` in front. */
  lemma {:induction false} CollectAcc(acc: seq<JsonValue>, xs: seq<JsonValue>, step: JsonValue -> Result<Step>)
    ensures Collect(acc, xs, step) ==
      match Collect([], xs, step)
      case Err(e) => Err(e)
      case Ok(out) => Ok(acc + out)
    decreases |xs|
  {
    if |xs| > 0 {
      match step(xs[0])
      case Err(_) =>
      case Ok(Skip) => CollectAcc(acc, xs[1..], step);
      case Ok(Keep(rec)) =>
        CollectAcc(acc + [rec], xs[1..], step);
        CollectAcc([rec], xs[1..], step);
        assert [] + [rec] == [rec];
        match Collect([], xs[1..], step)
        case Err(_) =>
        case Ok(out) => assert acc + [rec] + out == acc + ([rec] + out);
    } else {
      assert acc + [] == acc;
    }
  }

  /** The loop over `a + b` continues over `b` from where `a` left off. */
  lemma {:induction false} CollectSplit(acc: seq<JsonValue>, a: seq<JsonValue>, b: seq<JsonValue>, step: JsonValue -> Result<Step>)
    ensures Collect(acc, a + b, step) ==
      match Collect(acc, a, step)
      case Err(e) => Err(e)
      case Ok(mid) => Collect(mid, b, step)
    decreases |a|
  {
    if |a| > 0 {
      assert (a + b)[0] == a[0] && (a + b)[1..] == a[1..] + b;
      match step(a[0])
      case Err(_) =>
      case Ok(Skip) => CollectSplit(acc, a[1..], b, step);
      case Ok(Keep(rec)) => CollectSplit(acc + [rec], a[1..], b, step);
    } else {
      assert a + b == b;
    }
  }

  /** Order is preserved: the records kept from `a + b` are those kept from
      `a` followed by those kept from `b`, and the first exception wins. */
  lemma CollectAppend(a: seq<JsonValue>, b: seq<JsonValue>, step: JsonValue -> Result<Step>)
    ensures Collect([], a + b, step) ==
      match Collect([], a, step)
      case Err(e) => Err(e)
      case Ok(oa) =>
        match Collect([], b, step)
        case Err(e) => Err(e)
        case Ok(ob) => Ok(oa + ob)
  {
    CollectSplit([], a, b, step);
    match Collect([], a, step)
    case Err(_) =>
    case Ok(oa) => CollectAcc(oa, b, step);
  }

  /** One element contributes exactly what its step emits. */
  lemma CollectOne(x: JsonValue, step: JsonValue -> Result<Step>)
    ensures Collect([], [x], step) ==
      match step(x)
      case Err(e) => Err(e)
      case Ok(s) => Ok(Emit(s))
  {
    assert [x][1..] == [];
  }

  /** The loop finishes without an exception iff no step raises. */
  lemma {:induction false} CollectOk(acc: seq<JsonValue>, xs: seq<JsonValue>, step: JsonValue -> Result<Step>)
    ensures Collect(acc, xs, step).Ok? <==> forall i :: 0 <= i < |xs| ==> step(xs[i]).Ok?
    decreases |xs|
  {
    if |xs| > 0 {
      assert forall i :: 0 < i < |xs| ==> xs[i] == xs[1..][i - 1];
      match step(xs[0])
      case Err(_) =>
      case Ok(Skip) => CollectOk(acc, xs[1..], step);
      case Ok(Keep(rec)) => CollectOk(acc + [rec], xs[1..], step);
    }
  }

  /** Every record past `acc` is the record some element's step kept. */
  lemma {:induction false} CollectKept(acc: seq<JsonValue>, xs: seq<JsonValue>, step: JsonValue -> Result<Step>)
    requires Collect(acc, xs, step).Ok?
    ensures var out := Collect(acc, xs, step).value;
      forall k :: |acc| <= k < |out| ==> exists i :: 0 <= i < |xs| && step(xs[i]) == Ok(Keep(out[k]))
    decreases |xs|
  {
    var out := Collect(acc, xs, step).value;
    if |xs| > 0 {
      forall i | 0 <= i < |xs| - 1 ensures xs[1..][i] == xs[i + 1] { }
      match step(xs[0])
      case Ok(Skip) => CollectKept(acc, xs[1..], step);
      case Ok(Keep(rec)) =>
        CollectKept(acc + [rec], xs[1..], step);
        assert out[..|acc| + 1] == acc + [rec];
        assert out[|acc|] == rec;
    }
  }

  // ------------------------------------------------- one-way flights

  /** `results.get(key) or []`. */
  function ResultList(results: Fields, key: string): JsonValue {
    OrElse(Lookup(results, key).GetOr(JNull), JArray([]))
  }

  /** `(results.get("best_flights") or []) + (results.get("other_flights") or [])`
      as the loop sees it: two lists concatenate; two non-empty strings
      concatenate too, but the loop's first `.get` on a character raises; any
      other mix raises at `+` or at the `for`. */
  function FlightRaw(results: Fields): (r: Result<seq<JsonValue>>)
    ensures r.Ok? <==> ResultList(results, "best_flights").JArray? && ResultList(results, "other_flights").JArray?
    ensures r.Ok? ==> r.value == ResultList(results, "best_flights").items + ResultList(results, "other_flights").items
  {
    var best, other := ResultList(results, "best_flights"), ResultList(results, "other_flights");
    if best.JArray? && other.JArray? then Ok(best.items + other.items)
    else if best.JStr? && other.JStr? then Err(AttributeError)
    else Err(TypeError)
  }

  /** `seg.get(key) or {}`. */
  function Airport(seg: JsonValue, key: string): (r: Result<JsonValue>)
    ensures r.Err? <==> !seg.JObject?
  {
    match Get(seg, key, JNull)
    case Err(e) => Err(e)
    case Ok(a) => Ok(OrElse(a, JObject([])))
  }

  /** One pass of the airline loop: a truthy airline not yet in the list is
      appended. */
  function AirlineStep(airlines: seq<JsonValue>, seg: JsonValue): Result<seq<JsonValue>> {
    match Get(seg, "airline", JNull)
    case Err(e) => Err(e)
    case Ok(airline) =>
      if Truthy(airline) && !InList(airline, airlines) then Ok(airlines + [airline]) else Ok(airlines)
  }

  /** The airline loop over the segments, from `airlines`. */
  function Airlines(airlines: seq<JsonValue>, segs: seq<JsonValue>): (r: Result<seq<JsonValue>>)
    ensures r.Ok? ==> |airlines| <= |r.value| && r.value[..|airlines|] == airlines
    decreases |segs|
  {
    if |segs| == 0 then Ok(airlines)
    else
      match AirlineStep(airlines, segs[0])
      case Err(e) => Err(e)
      case Ok(next) =>
        var r := Airlines(next, segs[1..]);
        assert r.Ok? ==> r.value[..|airlines|] == r.value[..|next|][..|airlines|];
        r
  }

  /** No two collected airlines are equal. */
  predicate NoEqualPair(xs: seq<JsonValue>) {
    forall i, j :: 0 <= i < j < |xs| ==> !PyEq(xs[i], xs[j])
  }

  /** The airline of a segment, as the loop reads it. */
  function AirlineOf(seg: JsonValue): JsonValue
    requires seg.JObject?
  {
    Lookup(seg.fields, "airline").GetOr(JNull)
  }

  /** The airline loop raises iff some segment is not a dict. Otherwise the
      list it builds holds no two equal airlines, holds every truthy airline
      of the segments (compared with `==`), and holds nothing else but what
      it started from (`AirlinesOrder` gives the order). */
  lemma {:induction false} AirlinesDeduplicated(airlines: seq<JsonValue>, segs: seq<JsonValue>)
    requires NoEqualPair(airlines)
    ensures Airlines(airlines, segs).Ok? <==> forall i :: 0 <= i < |segs| ==> segs[i].JObject?
    ensures Airlines(airlines, segs).Ok? ==>
      var out := Airlines(airlines, segs).value;
      && out[..|airlines|] == airlines
      && NoEqualPair(out)
      && (forall i :: 0 <= i < |segs| && Truthy(AirlineOf(segs[i])) ==>
            AirlineOf(segs[i]) in out || InList(AirlineOf(segs[i]), out))
      && (forall k :: |airlines| <= k < |out| ==>
            Truthy(out[k]) && exists i :: 0 <= i < |segs| && out[k] == AirlineOf(segs[i]))
    decreases |segs|
  {
    if |segs| > 0 {
      forall i | 0 <= i < |segs| - 1 ensures segs[1..][i] == segs[i + 1] { }
      match AirlineStep(airlines, segs[0])
      case Err(_) =>
      case Ok(next) =>
        AirlineStepDistinct(airlines, segs[0], next);
        AirlinesDeduplicated(next, segs[1..]);
        if Airlines(next, segs[1..]).Ok? {
          var out := Airlines(next, segs[1..]).value;
          assert out[..|airlines|] == out[..|next|][..|airlines|];
          AirlinesCompleteStep(airlines, segs, next, out);
          AirlinesSoundStep(airlines, segs, next, out);
        }
    }
  }

  /** One step of the airline loop keeps the list free of equal pairs. */
  lemma AirlineStepDistinct(airlines: seq<JsonValue>, seg: JsonValue, next: seq<JsonValue>)
    requires NoEqualPair(airlines) && AirlineStep(airlines, seg) == Ok(next)
    ensures seg.JObject? && NoEqualPair(next)
    ensures var a := AirlineOf(seg);
      next == if Truthy(a) && !InList(a, airlines) then airlines + [a] else airlines
  {
    var a := AirlineOf(seg);
    if Truthy(a) && !InList(a, airlines) {
      forall i, j | 0 <= i < j < |next| ensures !PyEq(next[i], next[j]) {
        if j == |airlines| {
          assert next[i] == airlines[i];
        }
      }
    }
  }

  /** Completeness carries over from the rest of the segments to all of them. */
  lemma AirlinesCompleteStep(airlines: seq<JsonValue>, segs: seq<JsonValue>, next: seq<JsonValue>, out: seq<JsonValue>)
    requires |segs| > 0 && forall i :: 0 <= i < |segs| ==> segs[i].JObject?
    requires var a := AirlineOf(segs[0]);
      next == if Truthy(a) && !InList(a, airlines) then airlines + [a] else airlines
    requires |next| <= |out| && out[..|next|] == next
    requires forall i :: 0 <= i < |segs[1..]| && Truthy(AirlineOf(segs[1..][i])) ==>
      AirlineOf(segs[1..][i]) in out || InList(AirlineOf(segs[1..][i]), out)
    ensures forall i :: 0 <= i < |segs| && Truthy(AirlineOf(segs[i])) ==>
      AirlineOf(segs[i]) in out || InList(AirlineOf(segs[i]), out)
  {
    var a := AirlineOf(segs[0]);
    forall i | 0 <= i < |segs| && Truthy(AirlineOf(segs[i])) ensures AirlineOf(segs[i]) in out || InList(AirlineOf(segs[i]), out) {
      if i == 0 {
        if InList(a, airlines) {
          var k :| 0 <= k < |airlines| && PyEq(airlines[k], a);
          assert out[k] == next[k] == airlines[k];
        } else {
          assert out[|airlines|] == next[|airlines|];
        }
      } else {
        assert segs[i] == segs[1..][i - 1];
      }
    }
  }

  /** Soundness carries over from the rest of the segments to all of them. */
  lemma AirlinesSoundStep(airlines: seq<JsonValue>, segs: seq<JsonValue>, next: seq<JsonValue>, out: seq<JsonValue>)
    requires |segs| > 0 && forall i :: 0 <= i < |segs| ==> segs[i].JObject?
    requires var a := AirlineOf(segs[0]);
      next == if Truthy(a) && !InList(a, airlines) then airlines + [a] else airlines
    requires |next| <= |out| && out[..|next|] == next
    requires forall k :: |next| <= k < |out| ==>
      Truthy(out[k]) && exists i :: 0 <= i < |segs[1..]| && out[k] == AirlineOf(segs[1..][i])
    ensures forall k :: |airlines| <= k < |out| ==>
      Truthy(out[k]) && exists i :: 0 <= i < |segs| && out[k] == AirlineOf(segs[i])
  {
    forall k | |airlines| <= k < |out|
      ensures Truthy(out[k]) && exists i :: 0 <= i < |segs| && out[k] == AirlineOf(segs[i])
    {
      if k < |next| {
        assert out[k] == next[k] == AirlineOf(segs[0]);
      } else {
        var i :| 0 <= i < |segs[1..]| && out[k] == AirlineOf(segs[1..][i]);
        assert out[k] == AirlineOf(segs[i + 1]);
      }
    }
  }

  /** Running the airline loop over `a + b` is running it over `a` and then,
      from the list that gives, over `b`. */
  lemma {:induction false} AirlinesSplit(airlines: seq<JsonValue>, a: seq<JsonValue>, b: seq<JsonValue>)
    ensures Airlines(airlines, a + b) ==
      match Airlines(airlines, a)
      case Err(e) => Err(e)
      case Ok(mid) => Airlines(mid, b)
    decreases |a|
  {
    if |a| == 0 {
      assert a + b == b;
    } else {
      assert (a + b)[0] == a[0];
      assert (a + b)[1..] == a[1..] + b;
      match AirlineStep(airlines, a[0])
      case Err(_) =>
      case Ok(next) => AirlinesSplit(next, a[1..], b);
    }
  }

  /** First-seen order: the airlines collected from the first segments are,
      in the same order, the start of the list collected from all of them. */
  lemma AirlinesOrder(a: seq<JsonValue>, b: seq<JsonValue>)
    ensures Airlines([], a + b).Ok? ==>
      Airlines([], a).Ok? && Airlines([], a).value <= Airlines([], a + b).value
  {
    AirlinesSplit([], a, b);
  }

  /** The airline loop, as a loop. */
  method CollectAirlines(segs: seq<JsonValue>) returns (r: Result<seq<JsonValue>>)
    ensures r == Airlines([], segs)
  {
    var airlines: seq<JsonValue> := [];
    var i := 0;
    while i < |segs|
      invariant 0 <= i <= |segs|
      invariant Airlines(airlines, segs[i..]) == Airlines([], segs)
    {
      assert segs[i..][1..] == segs[i + 1..];
      var seg := segs[i];
      if !seg.JObject? {
        return Err(AttributeError);
      }
      var airline := Lookup(seg.fields, "airline").GetOr(JNull);
      if Truthy(airline) && !InList(airline, airlines) {
        airlines := airlines + [airline];
      }
      i := i + 1;
    }
    return Ok(airlines);
  }

  /** The `price` a flight dict carries. */
  function PriceField(f: JsonValue): JsonValue
    requires f.JObject?
  {
    Lookup(f.fields, "price").GetOr(JNull)
  }

  /** `f.get("flights", []) or []`. */
  function Segments(f: JsonValue): JsonValue
    requires f.JObject?
  {
    OrElse(Lookup(f.fields, "flights").GetOr(JArray([])), JArray([]))
  }

  /** `price * num_people`, written as repeated addition so that the
      records that carry it stay cheap to reason about; `FareIsProduct`
      states that it is the product. */
  function Fare(price: real, numPeople: int): real
    decreases if numPeople < 0 then -numPeople else numPeople
  {
    if numPeople == 0 then 0.0
    else if numPeople > 0 then Fare(price, numPeople - 1) + price
    else Fare(price, numPeople + 1) - price
  }

  lemma {:induction false} FareIsProduct(price: real, numPeople: int)
    ensures Fare(price, numPeople) == price * numPeople as real
    decreases if numPeople < 0 then -numPeople else numPeople
  {
    if numPeople > 0 {
      FareIsProduct(price, numPeople - 1);
      assert price * numPeople as real == price * (numPeople - 1) as real + price;
    } else if numPeople < 0 {
      FareIsProduct(price, numPeople + 1);
      assert price * numPeople as real == price * (numPeople + 1) as real - price;
    }
  }

  /** The dict a kept flight becomes. */
  function FlightRecord(f: JsonValue, price: real, numPeople: int, airlines: seq<JsonValue>, dep: JsonValue, arr: JsonValue): (r: JsonValue)
    requires f.JObject? && dep.JObject? && arr.JObject?
    ensures Priced(r) && PriceOf(r) == Fare(price, numPeople)
    ensures Lookup(r.fields, "airlines") == Some(JArray(airlines))
  {
    var fields := [
      ("price", JNum(Fare(price, numPeople))),
      ("price_display", PriceField(f)),
      ("airlines", JArray(airlines)),
      ("total_duration", Lookup(f.fields, "total_duration").GetOr(JNull)),
      ("departure_airport", Lookup(dep.fields, "id").GetOr(JNull)),
      ("depart_time", Lookup(dep.fields, "time").GetOr(JNull)),
      ("arrival_airport", Lookup(arr.fields, "id").GetOr(JNull)),
      ("arrival_time", Lookup(arr.fields, "time").GetOr(JNull))];
    assert fields[1..][1..] == fields[2..];
    assert Lookup(fields, "airlines") == Lookup(fields[2..], "airlines");
    JObject(fields)
  }

  /** The part of the loop body that reads a non-empty segment list: the
      first segment's departure, the last one's arrival, the airline loop,
      then the record. */
  function SegmentsStep(f: JsonValue, price: real, numPeople: int, segs: seq<JsonValue>): Result<Step>
    requires f.JObject? && |segs| > 0
  {
    match (Airport(segs[0], "departure_airport"), Airport(segs[|segs| - 1], "arrival_airport"))
    case (Err(e), _) => Err(e)
    case (_, Err(e)) => Err(e)
    case (Ok(dep), Ok(arr)) =>
      match Airlines([], segs)
      case Err(e) => Err(e)
      case Ok(airlines) =>
        if !dep.JObject? || !arr.JObject? then Err(AttributeError)
        else Ok(Keep(FlightRecord(f, price, numPeople, airlines, dep, arr)))
  }

  /** The body of the normalisation loop for one raw flight. */
  function FlightStep(f: JsonValue, numPeople: int): Result<Step> {
    if !f.JObject? then Err(AttributeError)
    else
      match ParsePrice(PriceField(f))
      case Err(e) => Err(e)
      case Ok(None) => Ok(Skip)
      case Ok(Some(price)) =>
        var segments := Segments(f);
        if !Truthy(segments) then Ok(Skip)
        else
          match segments
          case JArray(segs) => SegmentsStep(f, price, numPeople, segs)
          case JStr(_) => Err(AttributeError)   // `segments[0]` is a one-character str
          case JObject(_) => Err(KeyError)      // `segments[0]` looks up the key 0
          case _ => Err(TypeError)              // numbers and bools cannot be indexed
  }

  /** With a parsed price and a non-empty segment list, the loop body goes
      on to read the segments. */
  lemma FlightStepReadsSegments(f: JsonValue, numPeople: int)
    requires f.JObject? && ParsePrice(PriceField(f)).Ok? && ParsePrice(PriceField(f)).value.Some?
    requires Truthy(Segments(f)) && Segments(f).JArray?
    ensures FlightStep(f, numPeople) == SegmentsStep(f, ParsePrice(PriceField(f)).value.value, numPeople, Segments(f).items)
  {
  }

  function FlightStepper(numPeople: int): JsonValue -> Result<Step> {
    f => FlightStep(f, numPeople)
  }

  /** The normalisation loop of `search_oneWay_flights`. */
  function Normalize(raw: seq<JsonValue>, numPeople: int): Result<seq<JsonValue>> {
    Collect([], raw, FlightStepper(numPeople))
  }

  /** A normalised flight: a dict whose `price` is a number. */
  predicate Priced(f: JsonValue) {
    f.JObject? && Lookup(f.fields, "price").Some? && Lookup(f.fields, "price").value.JNum?
  }

  /** The price of a normalised flight (`f["price"]`); only ever applied to
      priced flights, so the fallback is never used. */
  function PriceOf(f: JsonValue): real {
    if Priced(f) then Lookup(f.fields, "price").value.n else 0.0
  }

  /** The price `parse_price` reads from a raw flight, when there is one. */
  function ParsedPrice(f: JsonValue): Option<real> {
    if !f.JObject? then None
    else
      match ParsePrice(PriceField(f))
      case Ok(Some(p)) => Some(p)
      case _ => None
  }

  /** A flight is skipped, without an exception, exactly when it is a dict
      whose price does not parse to a number, or whose price parses but
      whose segment list is empty or missing. */
  lemma FlightSkipped(f: JsonValue, numPeople: int)
    ensures FlightStep(f, numPeople) == Ok(Skip) <==>
      f.JObject? &&
      (ParsePrice(PriceField(f)) == Ok(None) ||
       (ParsePrice(PriceField(f)).Ok? && !Truthy(Segments(f))))
  {
    if f.JObject? && ParsePrice(PriceField(f)).Ok? && ParsePrice(PriceField(f)).value.Some? && Truthy(Segments(f)) {
      SegmentsNeverSkip(f, ParsePrice(PriceField(f)).value.value, numPeople, Segments(f));
    }
  }

  /** A non-empty segment list never leads to `continue`. */
  lemma SegmentsNeverSkip(f: JsonValue, price: real, numPeople: int, segments: JsonValue)
    requires f.JObject?
    ensures segments.JArray? && |segments.items| > 0 ==> SegmentsStep(f, price, numPeople, segments.items) != Ok(Skip)
  {
  }

  /** A record built from the segments is priced at the price times the
      number of travellers, and its airlines carry no two equal entries. */
  lemma SegmentsKept(f: JsonValue, price: real, numPeople: int, segs: seq<JsonValue>, rec: JsonValue)
    requires f.JObject? && |segs| > 0
    requires SegmentsStep(f, price, numPeople, segs) == Ok(Keep(rec))
    ensures Priced(rec) && PriceOf(rec) == Fare(price, numPeople)
    ensures Lookup(rec.fields, "airlines").Some? && Lookup(rec.fields, "airlines").value.JArray?
    ensures NoEqualPair(Lookup(rec.fields, "airlines").value.items)
  {
    AirlinesDeduplicated([], segs);
  }

  /** A kept flight's record is priced at the parsed price times the number
      of travellers, and its airlines carry no two equal entries. */
  lemma FlightKept(f: JsonValue, numPeople: int, rec: JsonValue)
    requires FlightStep(f, numPeople) == Ok(Keep(rec))
    ensures ParsedPrice(f).Some? && Segments(f).JArray? && |Segments(f).items| > 0
    ensures Priced(rec) && PriceOf(rec) == Fare(ParsedPrice(f).value, numPeople)
    ensures Lookup(rec.fields, "airlines").Some? && Lookup(rec.fields, "airlines").value.JArray?
    ensures NoEqualPair(Lookup(rec.fields, "airlines").value.items)
  {
    assert f.JObject?;
    var parsed := ParsePrice(PriceField(f));
    assert parsed.Ok? && parsed.value.Some?;
    assert ParsedPrice(f) == Some(parsed.value.value);
    var segments := Segments(f);
    assert Truthy(segments) && segments.JArray?;
    FlightStepReadsSegments(f, numPeople);
    SegmentsKept(f, parsed.value.value, numPeople, segments.items, rec);
  }

  /** `rec` is priced at the parsed price of some flight of `raw` times the
      number of travellers. */
  predicate PricedFrom(rec: JsonValue, raw: seq<JsonValue>, numPeople: int) {
    Priced(rec) &&
    exists i :: 0 <= i < |raw| && ParsedPrice(raw[i]).Some? && PriceOf(rec) == Fare(ParsedPrice(raw[i]).value, numPeople)
  }

  /** Every normalised flight is priced at some raw flight's parsed price
      times the number of travellers. */
  lemma NormalizedPrices(raw: seq<JsonValue>, numPeople: int)
    requires Normalize(raw, numPeople).Ok?
    ensures var out := Normalize(raw, numPeople).value;
      forall k :: 0 <= k < |out| ==> PricedFrom(out[k], raw, numPeople)
  {
    var out := Normalize(raw, numPeople).value;
    CollectKept([], raw, FlightStepper(numPeople));
    forall k | 0 <= k < |out| ensures PricedFrom(out[k], raw, numPeople) {
      var i :| 0 <= i < |raw| && FlightStepper(numPeople)(raw[i]) == Ok(Keep(out[k]));
      KeptFlightPricedFrom(raw, i, numPeople, out[k]);
    }
  }

  lemma KeptFlightPricedFrom(raw: seq<JsonValue>, i: nat, numPeople: int, rec: JsonValue)
    requires i < |raw| && FlightStepper(numPeople)(raw[i]) == Ok(Keep(rec))
    ensures PricedFrom(rec, raw, numPeople)
  {
    FlightKept(raw[i], numPeople, rec);
  }

  /** The segment part of the loop body, with the airline loop inside. */
  method ReadSegments(f: JsonValue, price: real, numPeople: int, segs: seq<JsonValue>) returns (r: Result<Step>)
    requires f.JObject? && |segs| > 0
    ensures r == SegmentsStep(f, price, numPeople, segs)
  {
    var dep := Airport(segs[0], "departure_airport");
    if dep.Err? {
      return Err(dep.error);
    }
    var arr := Airport(segs[|segs| - 1], "arrival_airport");
    if arr.Err? {
      return Err(arr.error);
    }
    var airlines := CollectAirlines(segs);
    if airlines.Err? {
      return Err(airlines.error);
    }
    if !dep.value.JObject? || !arr.value.JObject? {
      return Err(AttributeError);
    }
    r := Ok(Keep(FlightRecord(f, price, numPeople, airlines.value, dep.value, arr.value)));
  }

  /** The body of the normalisation loop. */
  method NormalizeOne(f: JsonValue, numPeople: int) returns (r: Result<Step>)
    ensures r == FlightStep(f, numPeople)
  {
    if !f.JObject? {
      return Err(AttributeError);
    }
    var price := ParsePrice(PriceField(f));
    if price.Err? {
      return Err(price.error);
    }
    if price.value.None? {
      return Ok(Skip);
    }
    var segments := Segments(f);
    if !Truthy(segments) {
      return Ok(Skip);
    }
    if !segments.JArray? {
      return if segments.JStr? then Err(AttributeError) else if segments.JObject? then Err(KeyError) else Err(TypeError);
    }
    FlightStepReadsSegments(f, numPeople);
    r := ReadSegments(f, price.value.value, numPeople, segments.items);
  }

  /** The normalisation loop of `search_oneWay_flights`, as a loop. */
  method NormalizeFlights(raw: seq<JsonValue>, numPeople: int) returns (r: Result<seq<JsonValue>>)
    ensures r == Normalize(raw, numPeople)
  {
    var normalized: seq<JsonValue> := [];
    var i := 0;
    while i < |raw|
      invariant 0 <= i <= |raw|
      invariant Collect(normalized, raw[i..], FlightStepper(numPeople)) == Normalize(raw, numPeople)
    {
      assert raw[i..][1..] == raw[i + 1..];
      var step := NormalizeOne(raw[i], numPeople);
      assert step == FlightStepper(numPeople)(raw[i]);
      if step.Err? {
        return Err(step.error);
      }
      if step.value.Keep? {
        normalized := normalized + [step.value.record];
      }
      i := i + 1;
    }
    return Ok(normalized);
  }

  /** `search_oneWay_flights` past the search call. */
  function SearchOneWay(results: Fields, numPeople: int): (r: Result<seq<JsonValue>>)
    ensures !(ResultList(results, "best_flights").JArray? && ResultList(results, "other_flights").JArray?) ==> r.Err?
  {
    match FlightRaw(results)
    case Err(e) => Err(e)
    case Ok(raw) => Normalize(raw, numPeople)
  }

  /** A successful one-way search read two lists, and every flight it
      returns is priced at the parsed price of one of their flights times
      the number of travellers. */
  lemma SearchOneWayPrices(results: Fields, numPeople: int)
    requires SearchOneWay(results, numPeople).Ok?
    ensures ResultList(results, "best_flights").JArray? && ResultList(results, "other_flights").JArray?
    ensures SearchOneWay(results, numPeople) ==
      Normalize(ResultList(results, "best_flights").items + ResultList(results, "other_flights").items, numPeople)
    ensures AllPriced(SearchOneWay(results, numPeople).value)
    ensures var raw := ResultList(results, "best_flights").items + ResultList(results, "other_flights").items;
      var out := SearchOneWay(results, numPeople).value;
      forall k :: 0 <= k < |out| ==> PricedFrom(out[k], raw, numPeople)
  {
    var raw := ResultList(results, "best_flights").items + ResultList(results, "other_flights").items;
    NormalizedPrices(raw, numPeople);
  }

  // --------------------------------------------------- round-trip pairing

  /** One round trip. */
  function Trip(o: JsonValue, r: JsonValue): JsonValue {
    JObject([("total_price", JNum(PriceOf(o) + PriceOf(r))), ("outbound", o), ("return", r)])
  }

  predicate AllPriced(fs: seq<JsonValue>) {
    forall i :: 0 <= i < |fs| ==> Priced(fs[i])
  }

  /** The inner loop, for one outbound flight. */
  function TripsWith(o: JsonValue, ins: seq<JsonValue>, budget: real): seq<JsonValue> {
    if |ins| == 0 then []
    else
      var rest := TripsWith(o, ins[..|ins| - 1], budget);
      var r := ins[|ins| - 1];
      if PriceOf(o) + PriceOf(r) <= budget then rest + [Trip(o, r)] else rest
  }

  /** The nested loops of `search_roundTrip_flights`: outbound-major order. */
  function Trips(outs: seq<JsonValue>, ins: seq<JsonValue>, budget: real): seq<JsonValue> {
    if |outs| == 0 then []
    else Trips(outs[..|outs| - 1], ins, budget) + TripsWith(outs[|outs| - 1], ins, budget)
  }

  /** The trips for one outbound flight are exactly its pairs within budget. */
  lemma {:induction false} TripsWithMembers(o: JsonValue, ins: seq<JsonValue>, budget: real, t: JsonValue)
    ensures t in TripsWith(o, ins, budget) <==>
      exists j :: 0 <= j < |ins| && PriceOf(o) + PriceOf(ins[j]) <= budget && t == Trip(o, ins[j])
  {
    if |ins| > 0 {
      var front := ins[..|ins| - 1];
      TripsWithMembers(o, front, budget, t);
      assert forall j :: 0 <= j < |front| ==> front[j] == ins[j];
    }
  }

  /** A round trip is listed iff its two prices sum to at most the budget. */
  lemma {:induction false} TripsMembers(outs: seq<JsonValue>, ins: seq<JsonValue>, budget: real, t: JsonValue)
    ensures t in Trips(outs, ins, budget) <==>
      exists i, j :: 0 <= i < |outs| && 0 <= j < |ins| &&
        PriceOf(outs[i]) + PriceOf(ins[j]) <= budget && t == Trip(outs[i], ins[j])
  {
    if |outs| > 0 {
      var front, last := outs[..|outs| - 1], outs[|outs| - 1];
      TripsMembers(front, ins, budget, t);
      TripsWithMembers(last, ins, budget, t);
      assert forall i :: 0 <= i < |front| ==> front[i] == outs[i];
      if t in TripsWith(last, ins, budget) {
        var j :| 0 <= j < |ins| && PriceOf(last) + PriceOf(ins[j]) <= budget && t == Trip(last, ins[j]);
        assert PriceOf(outs[|outs| - 1]) + PriceOf(ins[j]) <= budget && t == Trip(outs[|outs| - 1], ins[j]);
      }
    }
  }

  /** Outbound-major order: the trips for `a + b` are the trips for `a`
      followed by the trips for `b`. */
  lemma {:induction false} TripsOrder(a: seq<JsonValue>, b: seq<JsonValue>, ins: seq<JsonValue>, budget: real)
    ensures Trips(a + b, ins, budget) == Trips(a, ins, budget) + Trips(b, ins, budget)
  {
    if |b| == 0 {
      assert a + b == a;
    } else {
      var front, last := b[..|b| - 1], b[|b| - 1];
      TripsOrder(a, front, ins, budget);
      assert (a + b)[..|a + b| - 1] == a + front;
      assert (a + b)[|a + b| - 1] == last;
      calc {
        Trips(a + b, ins, budget);
        Trips(a + front, ins, budget) + TripsWith(last, ins, budget);
        Trips(a, ins, budget) + Trips(front, ins, budget) + TripsWith(last, ins, budget);
        Trips(a, ins, budget) + (Trips(front, ins, budget) + TripsWith(last, ins, budget));
        Trips(a, ins, budget) + Trips(b, ins, budget);
      }
    }
  }

  /** Every listed trip is a dict whose `total_price` is within the budget. */
  lemma TripTotal(outs: seq<JsonValue>, ins: seq<JsonValue>, budget: real, t: JsonValue)
    requires t in Trips(outs, ins, budget)
    ensures t.JObject? && Lookup(t.fields, "total_price").Some?
    ensures Lookup(t.fields, "total_price").value.JNum?
    ensures Lookup(t.fields, "total_price").value.n <= budget
  {
    TripsMembers(outs, ins, budget, t);
    var i, j :| 0 <= i < |outs| && 0 <= j < |ins| &&
      PriceOf(outs[i]) + PriceOf(ins[j]) <= budget && t == Trip(outs[i], ins[j]);
    assert t.fields[0] == ("total_price", JNum(PriceOf(outs[i]) + PriceOf(ins[j])));
  }

  /** Normalised flights are all priced, so they can be paired. */
  lemma NormalizedArePriced(raw: seq<JsonValue>, numPeople: int)
    requires Normalize(raw, numPeople).Ok?
    ensures AllPriced(Normalize(raw, numPeople).value)
  {
    NormalizedPrices(raw, numPeople);
  }

  /** The nested pairing loops, as loops. */
  method PairTrips(outs: seq<JsonValue>, ins: seq<JsonValue>, budget: real) returns (trips: seq<JsonValue>)
    requires AllPriced(outs) && AllPriced(ins)
    ensures trips == Trips(outs, ins, budget)
  {
    trips := [];
    var i := 0;
    while i < |outs|
      invariant 0 <= i <= |outs|
      invariant trips == Trips(outs[..i], ins, budget)
    {
      var o := outs[i];
      ghost var before := trips;
      var j := 0;
      while j < |ins|
        invariant 0 <= j <= |ins|
        invariant trips == before + TripsWith(o, ins[..j], budget)
      {
        var r := ins[j];
        var totalPrice := PriceOf(o) + PriceOf(r);
        assert ins[..j + 1][..j] == ins[..j];
        if totalPrice <= budget {
          trips := trips + [Trip(o, r)];
        }
        j := j + 1;
      }
      assert ins[..|ins|] == ins;
      assert outs[..i + 1][..i] == outs[..i];
      i := i + 1;
    }
    assert outs[..|outs|] == outs;
  }

  /** `search_roundTrip_flights` past the two searches. */
  function SearchRoundTrip(outbound: Fields, inbound: Fields, numPeople: int, budget: real): (r: Result<seq<JsonValue>>)
    ensures r.Ok? <==> SearchOneWay(outbound, numPeople).Ok? && SearchOneWay(inbound, numPeople).Ok?
  {
    match SearchOneWay(outbound, numPeople)
    case Err(e) => Err(e)
    case Ok(outs) =>
      match SearchOneWay(inbound, numPeople)
      case Err(e) => Err(e)
      case Ok(ins) =>
        Ok(Trips(outs, ins, budget))
  }

  /** Both searches return priced flights, and a round trip is listed iff it
      pairs an outbound and a return flight whose prices sum to at most the
      budget. */
  lemma SearchRoundTripMembers(outbound: Fields, inbound: Fields, numPeople: int, budget: real, t: JsonValue)
    requires SearchRoundTrip(outbound, inbound, numPeople, budget).Ok?
    ensures var outs, ins := SearchOneWay(outbound, numPeople).value, SearchOneWay(inbound, numPeople).value;
      && AllPriced(outs) && AllPriced(ins)
      && (t in SearchRoundTrip(outbound, inbound, numPeople, budget).value <==>
          exists i, j :: 0 <= i < |outs| && 0 <= j < |ins| &&
            PriceOf(outs[i]) + PriceOf(ins[j]) <= budget && t == Trip(outs[i], ins[j]))
  {
    SearchOneWayPrices(outbound, numPeople);
    SearchOneWayPrices(inbound, numPeople);
    TripsMembers(SearchOneWay(outbound, numPeople).value, SearchOneWay(inbound, numPeople).value, budget, t);
  }

  // ------------------------------------------------------------- hotels

  /** `h.get("rate_per_night", {}).get("lowest")`. */
  function RateRaw(h: JsonValue): (r: Result<JsonValue>)
    ensures r.Ok? ==> h.JObject?
  {
    match Get(h, "rate_per_night", JObject([]))
    case Err(e) => Err(e)
    case Ok(rate) => Get(rate, "lowest", JNull)
  }

  /** `gps.get(key) if gps else None`. */
  function Coordinate(gps: JsonValue, key: string): JsonValue
    requires !Truthy(gps) || gps.JObject?
  {
    if Truthy(gps) then Lookup(gps.fields, key).GetOr(JNull) else JNull
  }

  /** The dict a kept hotel becomes. */
  function HotelRecord(h: JsonValue, raw: JsonValue, price: real, total: real, gps: JsonValue): (r: JsonValue)
    requires h.JObject? && (!Truthy(gps) || gps.JObject?)
    ensures r.JObject? && Lookup(r.fields, "total_price_num") == Some(JNum(total))
  {
    var fields := [
      ("name", Lookup(h.fields, "name").GetOr(JNull)),
      ("price_per_night", raw),
      ("price_per_night_num", JNum(price)),
      ("total_price_num", JNum(total)),
      ("rating", Lookup(h.fields, "overall_rating").GetOr(JNull)),
      ("reviews", Lookup(h.fields, "reviews").GetOr(JNull)),
      ("class", Lookup(h.fields, "extracted_hotel_class").GetOr(JNull)),
      ("lat", Coordinate(gps, "latitude")),
      ("lng", Coordinate(gps, "longitude"))];
    assert fields[1..][1..][1..] == fields[3..];
    assert Lookup(fields, "total_price_num") == Lookup(fields[3..], "total_price_num");
    JObject(fields)
  }

  /** The body of the hotel loop for one property. */
  function HotelStep(h: JsonValue, nights: int, budget: real): Result<Step> {
    match RateRaw(h)
    case Err(e) => Err(e)
    case Ok(raw) =>
      match ParsePrice(raw)
      case Err(e) => Err(e)
      case Ok(None) => Ok(Skip)
      case Ok(Some(price)) =>
        var total := price * nights as real;
        if !(total <= budget) then Ok(Skip)
        else
          var gps := Lookup(h.fields, "gps_coordinates").GetOr(JObject([]));
          if Truthy(gps) && !gps.JObject? then Err(AttributeError)
          else
            Ok(Keep(HotelRecord(h, raw, price, total, gps)))
  }

  function HotelStepper(nights: int, budget: real): JsonValue -> Result<Step> {
    h => HotelStep(h, nights, budget)
  }

  /** A hotel record's total price, when it is a number. */
  predicate TotalWithin(rec: JsonValue, budget: real) {
    rec.JObject? && Lookup(rec.fields, "total_price_num").Some? &&
    Lookup(rec.fields, "total_price_num").value.JNum? &&
    Lookup(rec.fields, "total_price_num").value.n <= budget
  }

  /** A hotel is skipped, without an exception, exactly when its rate does
      not parse to a number or the rate times the nights exceeds the budget. */
  lemma HotelSkipped(h: JsonValue, nights: int, budget: real)
    ensures HotelStep(h, nights, budget) == Ok(Skip) <==>
      RateRaw(h).Ok? &&
      (ParsePrice(RateRaw(h).value) == Ok(None) ||
       (ParsePrice(RateRaw(h).value).Ok? && ParsePrice(RateRaw(h).value).value.value * nights as real > budget))
  {
  }

  /** A kept hotel's total is its parsed nightly rate times the nights, and
      within the budget (`<=`). */
  lemma HotelKept(h: JsonValue, nights: int, budget: real, rec: JsonValue)
    requires HotelStep(h, nights, budget) == Ok(Keep(rec))
    ensures RateRaw(h).Ok? && ParsePrice(RateRaw(h).value).Ok? && ParsePrice(RateRaw(h).value).value.Some?
    ensures TotalWithin(rec, budget)
    ensures Lookup(rec.fields, "total_price_num").value.n == ParsePrice(RateRaw(h).value).value.value * nights as real
  {
  }

  /** `hotels = results.get("properties", [])`, iterated. */
  function Properties(results: Fields): Result<seq<JsonValue>> {
    Iter(Lookup(results, "properties").GetOr(JArray([])))
  }

  /** `output[:10]`. */
  function FirstTen(output: seq<JsonValue>): (r: seq<JsonValue>)
    ensures |r| == if |output| <= 10 then |output| else 10
    ensures r == output[..|r|]
  {
    if |output| <= 10 then output else output[..10]
  }

  /** The hotel loop of `search_hotels`, then the cap of ten. */
  function FilterHotels(hotels: seq<JsonValue>, nights: int, budget: real): Result<seq<JsonValue>> {
    match Collect([], hotels, HotelStepper(nights, budget))
    case Err(e) => Err(e)
    case Ok(output) => Ok(FirstTen(output))
  }

  /** The result is at most ten hotels, each within the budget, in the order
      of the properties, the first ten of all that were kept. */
  lemma {:induction false} FilteredHotels(hotels: seq<JsonValue>, nights: int, budget: real)
    requires FilterHotels(hotels, nights, budget).Ok?
    ensures var out, all := FilterHotels(hotels, nights, budget).value, Collect([], hotels, HotelStepper(nights, budget)).value;
      |out| == if |all| <= 10 then |all| else 10
    ensures var out, all := FilterHotels(hotels, nights, budget).value, Collect([], hotels, HotelStepper(nights, budget)).value;
      out == all[..|out|]
    ensures var out := FilterHotels(hotels, nights, budget).value;
      forall k :: 0 <= k < |out| ==> TotalWithin(out[k], budget)
  {
    var all := Collect([], hotels, HotelStepper(nights, budget)).value;
    var out := FilterHotels(hotels, nights, budget).value;
    CollectKept([], hotels, HotelStepper(nights, budget));
    forall k | 0 <= k < |out| ensures TotalWithin(out[k], budget) {
      assert out[k] == all[k];
      var i :| 0 <= i < |hotels| && HotelStepper(nights, budget)(hotels[i]) == Ok(Keep(all[k]));
      HotelKept(hotels[i], nights, budget, all[k]);
    }
  }

  /** The hotel loop, as a loop. */
  method SelectHotels(hotels: seq<JsonValue>, nights: int, budget: real) returns (r: Result<seq<JsonValue>>)
    ensures r == FilterHotels(hotels, nights, budget)
  {
    var output: seq<JsonValue> := [];
    var i := 0;
    while i < |hotels|
      invariant 0 <= i <= |hotels|
      invariant Collect(output, hotels[i..], HotelStepper(nights, budget)) == Collect([], hotels, HotelStepper(nights, budget))
    {
      assert hotels[i..][1..] == hotels[i + 1..];
      var step := HotelStep(hotels[i], nights, budget);
      assert step == HotelStepper(nights, budget)(hotels[i]);
      if step.Err? {
        return Err(step.error);
      }
      if step.value.Keep? {
        output := output + [step.value.record];
      }
      i := i + 1;
    }
    return Ok(FirstTen(output));
  }

  /** `search_hotels` past the search call, for a stay of `nights` nights. */
  function SearchHotels(results: Fields, nights: int, budget: real): (r: Result<seq<JsonValue>>)
    ensures Properties(results).Err? ==> r == Err(Properties(results).error)
    ensures Lookup(results, "properties").None? ==> r == Ok([])
  {
    match Properties(results)
    case Err(e) => Err(e)
    case Ok(hotels) => FilterHotels(hotels, nights, budget)
  }

  /** A successful hotel search returns the first ten kept properties, in
      their order, each within the budget for the whole stay. */
  lemma SearchHotelsFiltered(results: Fields, nights: int, budget: real)
    requires SearchHotels(results, nights, budget).Ok?
    ensures Properties(results).Ok?
    ensures var out := SearchHotels(results, nights, budget).value;
      var all := Collect([], Properties(results).value, HotelStepper(nights, budget)).value;
      && |out| == (if |all| <= 10 then |all| else 10)
      && out == all[..|out|]
      && forall k :: 0 <= k < |out| ==> TotalWithin(out[k], budget)
  {
    FilteredHotels(Properties(results).value, nights, budget);
  }
}
