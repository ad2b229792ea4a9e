/** The deterministic parts of the flight agent: the city-to-airport table,
    the request it sends to the model, and the JSON extraction of the reply. */
module FlightAgent {
  import opened Text
  import opened Json

  /** `CITY_TO_IATA`. */
  const CityToIata: Fields := [
    ("St. Louis", JStr("STL")),
    ("Phoenix", JStr("PHX")),
    ("Seattle", JStr("SEA")),
    ("New York", JStr("JFK")),
    ("Los Angeles", JStr("LAX")),
    ("San Francisco", JStr("SFO")),
    ("Chicago", JStr("ORD")),
    ("Dallas", JStr("DFW")),
    ("Houston", JStr("IAH")),
    ("Miami", JStr("MIA")),
    ("Boston", JStr("BOS"))
  ]

  /** `CITY_TO_IATA.get(city)`: an exact match on one of the listed city
      names gives its code; any other hashable value gives `None`; a list or
      dict cannot be looked up at all. */
  function AirportFor(city: JsonValue): (r: Result<JsonValue>)
    ensures r.Err? <==> !Hashable(city)
    ensures r.Ok? && r.value != JNull ==>
      city.JStr? && exists i :: 0 <= i < |CityToIata| && CityToIata[i] == (city.s, r.value)
    ensures r.Ok? && r.value == JNull ==> !(city.JStr? && HasKey(CityToIata, city.s))
  {
    if !Hashable(city) then Err(TypeError)
    else if city.JStr? then Ok(Lookup(CityToIata, city.s).GetOr(JNull))
    else Ok(JNull)
  }

  /** `flight_input = {**trip_config, "origin_airport": ..., "destination_airport": ...}`. */
  function FlightInput(tripConfig: JsonValue): (r: Result<JsonValue>)
    ensures r.Err? <==>
      !tripConfig.JObject? ||
      !Hashable(Lookup(tripConfig.fields, "origin_city").GetOr(JNull)) ||
      !Hashable(Lookup(tripConfig.fields, "destination_city").GetOr(JNull))
    ensures r.Ok? ==> r.value.JObject?
  {
    if !tripConfig.JObject? then Err(AttributeError)
    else
      var fields := tripConfig.fields;
      var origin :- AirportFor(Lookup(fields, "origin_city").GetOr(JNull));
      var dest :- AirportFor(Lookup(fields, "destination_city").GetOr(JNull));
      Ok(JObject(SetKey(SetKey(fields, "origin_airport", origin), "destination_airport", dest)))
  }

  /** What `flight_input` holds: each key of `trip_config` with its value,
      except that `origin_airport` and `destination_airport` are the looked-up
      codes, whether or not `trip_config` already had them. */
  lemma {:induction false} FlightInputContents(tripConfig: JsonValue, k: string)
    requires FlightInput(tripConfig).Ok?
    ensures var fi := FlightInput(tripConfig).value.fields;
      var fields := tripConfig.fields;
      && (HasKey(fi, k) <==> HasKey(fields, k) || k == "origin_airport" || k == "destination_airport")
      && Lookup(fi, "origin_airport") == Some(AirportFor(Lookup(fields, "origin_city").GetOr(JNull)).value)
      && Lookup(fi, "destination_airport") == Some(AirportFor(Lookup(fields, "destination_city").GetOr(JNull)).value)
      && (k != "origin_airport" && k != "destination_airport" ==> Lookup(fi, k) == Lookup(fields, k))
      && (DistinctKeys(fields) ==> DistinctKeys(fi))
  {
    var fields := tripConfig.fields;
    var origin := AirportFor(Lookup(fields, "origin_city").GetOr(JNull)).value;
    var dest := AirportFor(Lookup(fields, "destination_city").GetOr(JNull)).value;
    var once := SetKey(fields, "origin_airport", origin);
    SetKeyKeys(fields, "origin_airport", origin);
    SetKeyKeys(once, "destination_airport", dest);
    SetKeyLookup(fields, "origin_airport", origin, k);
    SetKeyLookup(once, "destination_airport", dest, k);
    SetKeyLookup(fields, "origin_airport", origin, "origin_airport");
    SetKeyLookup(once, "destination_airport", dest, "origin_airport");
    SetKeyLookup(once, "destination_airport", dest, "destination_airport");
  }

  /** A city outside the table, such as "New York City", has no airport. */
  lemma UnlistedCity()
    ensures AirportFor(JStr("New York City")) == Ok(JNull)
  {
    var t, k := CityToIata, "New York City";
    forall i | 0 <= i < |t| ensures t[i].0 != k {
      assert |t[i].0| != |k| || t[i].0[0] != k[0];
    }
    assert !HasKey(t, k);
  }

  /** A listed city has its code. */
  lemma ListedCity()
    ensures AirportFor(JStr("New York")) == Ok(JStr("JFK"))
  {
  }

  /** The text `extract_json` hands to `json.loads`. */
  function ExtractJsonText(text: string): (r: Result<string>)
    ensures r.Err? <==> !HasBracedPair(StripFences(text))
    ensures r.Err? ==> r.error == ValueError(NoJsonObject)
    ensures r.Ok? ==> IsFirstToLastSpan(r.value, StripFences(text))
  {
    match ObjectSpan(StripFences(text))
    case None => Err(ValueError(NoJsonObject))
    case Some(span) => Ok(span)
  }

  /** `extract_json(text)`. */
  function ExtractJson(text: string, loads: string -> Option<JsonValue>): Result<JsonValue> {
    ParseWith(loads, ExtractJsonText(text))
  }

  /** There is no explicit emptiness check, yet empty or blank text still
      raises: nothing is left to search. */
  lemma BlankTextRaises(text: string)
    requires forall i :: 0 <= i < |text| ==> IsSpace(text[i])
    ensures ExtractJsonText(text) == Err(ValueError(NoJsonObject))
  {
    StripBlank(text);
  }
}
