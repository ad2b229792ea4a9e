# MultiAgent-Travel-Planner: a verified model of the deterministic core

The travel planner chains language-model agents: a planner writes a day-by-day itinerary, a hotel agent and a flight agent pick accommodation and flights, a checker validates the assembled plan, and a formatter writes the summary for the traveller. This project models the deterministic code around those agents and proves properties of it. That code is:

- **the plan checker** (`check_plan`). It validates the itinerary, hotels and flights against a total budget with five rules, run in a fixed order:
  - JSON format;
  - the budget formula;
  - 1..5 attractions per day;
  - hotels within 10 km of the itinerary centroid;
  - flight completeness.

  An exception inside a rule becomes a violation of that rule, and the later rules still run.
- **the data helpers of `tools.py`**:
  - `parse_price`;
  - `compute_itinerary_centroid`, with its input cleaning, fence removal, `{…}` search, brace-depth truncation and mean of coordinates;
  - the greedy `cluster_attractions` partitioner over a `used` array;
  - the post-processing of the flight and hotel searches: one-way normalisation, round-trip pairing under the budget, and hotel filtering capped at ten.
- **the JSON extraction from model replies** in the hotel, flight and planner agents. The model also covers the city-to-IATA table and the `flight_input` merge of the flight agent.
- **the formatter's deterministic parts**:
  - attraction-name collection with de-duplication in first-seen order;
  - reading the description mapping, with its fallback;
  - the execution traces with their content previews.

## How the model is built

- **JSON values and Python semantics.** JSON values are a datatype (`Json.JsonValue`) on which the model states the Python semantics the code uses:
  - `isinstance(v, dict)`, truthiness, `dict.get` with a default, what a `for` loop visits, `len`, `v[0]`;
  - `==` across numbers and bools, `in` on lists, dicts and strs;
  - `{**d, k: v}`.
- **Exceptions and errors.** A Python exception is an `Err` of the `Json.Result` datatype. Each exception kind the code can raise is an `Error` constructor.
- **Numbers.** Prices, coordinates and distances are exact `real`s.
- **Library calls as parameters.** Library functions the code calls but does not define are fields of `Host.Env`. Nothing is assumed about them beyond their type, which says where they may raise:
  - `json.loads` and `json.dumps`;
  - `float()` on a string;
  - a tool's float coercion;
  - the haversine distance, which raises on a coordinate out of range.
  - A model reply is the list of its messages.
- **Imperative code stays imperative.** Where the source changes state step by step, the model is a method with a loop:
  - the checker's rule blocks and their day and hotel loops;
  - the clustering over a `used` array;
  - the flight, airline, trip and hotel loops;
  - the brace counter and the coordinate loops;
  - the name collection and the trace loops.

  Each such method is proved equal to a specification function, and the properties are lemmas about those functions.

## Model

| member | source | states |
|---|---|---|
| Checker.CheckPlan | checker_agent.py:9-270 | The method (five rule blocks, each with its loops and `try` containment) returns exactly `CheckPlanSpec`: format check first, then budget, attractions, hotel distance and flight rules in that order, with the centroid computed from `json.dumps(itinerary)` |
| Checker.CheckRules | checker_agent.py:48-264 | Past the format check, the violations and details are the four rule outcomes assembled in order, each contained by its own `try` |
| Checker.FormatShortCircuit | checker_agent.py:31-37 | If any of itinerary, hotels, flights is not a dict: `passed` is false, exactly one `json_format` violation and exactly one failed `json_format` detail; nothing else runs |
| Checker.PassedIffNoViolations | checker_agent.py:266-270 | `passed` holds iff the violation list is empty, on every input |
| Checker.FiveDetailsInOrder | checker_agent.py:39-264 | Once the format check passes there are exactly five details, ruled json_format (passed), budget, attractions_count, hotel_distance, flight_completeness, in that order |
| Checker.AssembleDetails | checker_agent.py:39-264 | Whatever the four rule outcomes are, the assembled details carry the five rules in order with the format detail passed |
| Checker.ViolationsPerRule | checker_agent.py:48-264 | Per rule, the number of violations in the result is the number that rule emitted (plus one if it raised); none is tagged json_format once the format check passes |
| Checker.Contain | checker_agent.py:90-99 | The detail a contained rule records is tagged with that rule |
| Checker.ContainShape | checker_agent.py:138-147 | Every violation a contained rule records is tagged with it; the ones its body appended come first; a rule that raised then adds exactly one violation and a failed detail carrying the error, while a rule that finished adds nothing more and keeps its own detail |
| Checker.ContainCount | checker_agent.py:212-221 | Containing an outcome adds violations tagged only with its own rule, as many as the outcome's weight |
| Checker.CountRuleAppend | checker_agent.py:25 | Counting one rule's violations distributes over appending to the list |
| Checker.CountRuleAll | checker_agent.py:25 | A list tagged entirely with a rule counts all its elements for that rule and none for any other |
| Checker.Tag | checker_agent.py:114-124 | Tagging messages with a rule gives one violation per message, in order |
| Checker.TagShape | checker_agent.py:114-124 | Element k of the tagged list is the violation of that rule carrying message k |
| Checker.TagAppend | checker_agent.py:114-124 | Tagging a list extended by one message appends one violation |
| Checker.RecordIssue | checker_agent.py:165-169 | Appending a violation and then recording its issue is the same as appending the tagged issues of the extended list |
| Checker.LegPrice | checker_agent.py:52-60 | A missing or falsy leg contributes 0; a truthy leg that is not a dict raises AttributeError |
| Checker.LegPriceOfFirstFlight | checker_agent.py:52-60 | A leg whose recommended flights form a non-empty list contributes the first flight's numeric `price`, and 0 when `price` is absent |
| Checker.EmptyLegIsMissing | checker_agent.py:52-60 | An empty `recommended_flights` list adds 0 to the price and counts as a missing leg for flight completeness |
| Checker.TotalPrices | checker_agent.py:65 | The comprehension gives one `total_price` per hotel (0 when absent), in order; it raises AttributeError iff some hotel is not a dict |
| Checker.SumNumbers | checker_agent.py:66 | `sum` raises TypeError iff some element is not a number or bool |
| Checker.HotelTotal | checker_agent.py:63-68 | A missing or falsy `recommended_hotels` gives 0; otherwise a successful result is the arithmetic mean of the hotels' `total_price` over a non-empty list |
| Checker.NonListHotelsRaise | checker_agent.py:64-66 | A truthy `recommended_hotels` that is not a list makes the hotel total raise |
| Checker.BudgetVerdict | checker_agent.py:70-89 | With both totals computed, the budget rule fails iff `1.5 × (flights + hotels) > budget` (equality passes), emitting one violation exactly when it fails |
| Checker.DayCount | checker_agent.py:105-111 | A day that is not a dict raises AttributeError |
| Checker.DayIssue | checker_agent.py:113-124 | A day yields at most one issue, and one exactly when its count is below 1 or above 5 |
| Checker.DaysScanCounts | checker_agent.py:105-124 | The day loop adds one issue per day read whose count is outside 1..5, each "no attractions" or "too many"; a loop that ends normally read every day |
| Checker.DaysScanExtends | checker_agent.py:105-124 | The day loop only appends to the issues it started with |
| Checker.DaysScanStop | checker_agent.py:105-111 | A day that raises ends the loop with that error and the issues so far |
| Checker.DaysScanNext | checker_agent.py:105-124 | A day that reads normally contributes its issue and the loop continues with the next day |
| Checker.AttractionsRecorded | checker_agent.py:102-147 | The attractions rule's violations and detail are the loop's issues; plus the error violation and a failed detail if the loop raised; a failed detail listing the issues; or a passed detail counting the days |
| Checker.ScanDays | checker_agent.py:105-124 | The method's loop appends exactly the tagged issues of the day scan (and the error violation when a day raises) to the incoming violations |
| Checker.CheckAttractions | checker_agent.py:101-147 | The whole block appends exactly the contained attractions outcome and returns its detail |
| Checker.HotelStep | checker_agent.py:153-198 | A hotel that is not a dict raises AttributeError |
| Checker.PrecomputedDistance | checker_agent.py:157-158 | A non-None `distance_km` is used directly: the hotel's verdict does not depend on the centroid, the distance function or any other library call |
| Checker.MissingLocationFirst | checker_agent.py:161-170 | Without a precomputed distance, a missing lat or lng is reported as missing location, whatever the centroid |
| Checker.AbsentCentroidReported | checker_agent.py:172-184 | With lat and lng present and no centroid, the hotel is reported as "cannot calculate centroid" |
| Checker.DistanceLimit | checker_agent.py:186-198 | With a centroid and coordinates that pass the tool's validation, the hotel check raises ValueError iff the distance call raises; otherwise it yields a violation iff the computed distance is `>= 10` |
| Checker.HotelsScanAtMostOne | checker_agent.py:153-198 | The hotel scan reports no more issues than there are hotels |
| Checker.HotelsScanSnoc | checker_agent.py:153-198 | After hotels that raised nothing, one more hotel adds exactly its own check's outcome: its single issue, nothing, or its exception |
| Checker.HotelsScanStop | checker_agent.py:153-198 | A hotel that raises ends the loop with that error |
| Checker.HotelsScanNext | checker_agent.py:153-198 | A hotel that reads normally adds its issue, if any, and the loop continues |
| Checker.HotelsRecorded | checker_agent.py:150-221 | The hotel rule's violations and detail are the loop's issues; plus the error violation if the loop raised; a failed detail listing the issues; or a passed detail counting the hotels |
| Checker.ScanHotels | checker_agent.py:153-198 | The method's loop appends exactly the tagged issues of the hotel scan (and the error violation when a hotel raises) |
| Checker.CheckHotels | checker_agent.py:149-221 | The whole block appends exactly the contained hotel outcome and returns its detail |
| Checker.HotelStepOnce | checker_agent.py:154-198 | The loop body for one hotel computes exactly the hotel step |
| Checker.HasLeg | checker_agent.py:225-226 | `has_*` raises iff the leg is truthy but not a dict; otherwise it is true iff the leg is a dict with truthy `recommended_flights` |
| Checker.FlightViolations | checker_agent.py:224-254 | Outbound and return are checked independently: 0, 1 or 2 violations, "missing outbound" iff no outbound, "missing return" iff no return |
| Checker.RulesOf | checker_agent.py:26 | The rule list has one entry per detail, in order |
| Centroid.CleanInput | tools.py:381-393 | Stripped text not wrapped in matching quotes is returned as is; quoted text that does not parse is kept; quoted text that parses to a non-string raises TypeError |
| Centroid.RemoveFenceMarks | tools.py:397 | The one-pass `re.sub` of "```json" and "```" never lengthens the text |
| Centroid.RemoveFenceMarksAbsent | tools.py:397 | Text without "```" is left unchanged |
| Centroid.RemoveFenceMarksFirst | tools.py:397 | The text before the first "```" is kept; that marker is deleted, with "json" when "json" follows it, and the pass continues after it |
| Centroid.OnePassDiffers | tools.py:397 | The centroid's one-pass fence removal and the agents' two sequential removals differ on "`````json`" |
| Centroid.OnePassKeepsJoined | tools.py:397 | The one-pass removal leaves "``json`" of "`````json`" |
| Centroid.SequentialRemovesJoined | hotel_agent.py:29-30 | The agents' two sequential removals reduce "`````json`" to the empty string |
| Centroid.NoTriple | tools.py:397 | Text without three consecutive backticks contains no "```" |
| Centroid.ClosingFrom | tools.py:407-418 | The first index from j at which the brace depth returns to 0 on a `}`; none exactly when no such index exists |
| Centroid.Truncate | tools.py:417-418 | The truncated span is a prefix of the matched span |
| Centroid.TruncateAtBalance | tools.py:407-418 | The brace-count loop returns exactly the span cut after the first `}` that brings the depth back to 0, or the whole span if none does |
| Centroid.TruncatedIsBalanced | tools.py:407-418 | When a closing index exists, the truncated span has depth 0 and positive depth on every proper non-empty prefix |
| Centroid.PositiveBefore | tools.py:407-418 | Before the first balancing `}`, a positive depth stays positive |
| Centroid.TrailingBraceDropped | tools.py:405 | `"{}}"` is truncated to `"{}"`, as the source comment promises |
| Centroid.ExtractJsonText | tools.py:395-420 | Raises ValueError iff the fence-free text has no `{` before a `}`; otherwise the text is the first-`{`-to-last-`}` span truncated at its balancing brace |
| Centroid.ItemStep | tools.py:432-438 | An item that is not a container raises TypeError; an item without both `lat` and `lng` keys contributes nothing |
| Centroid.ItemsFoldLists | tools.py:432-438 | The fold over items appends exactly the parsed lats of the items with both keys, and the lngs of those whose lat and lng both parse |
| Centroid.BlocksFoldLists | tools.py:431-438 | The fold over a day's blocks appends the contributions of the day's items, morning, afternoon, evening in turn |
| Centroid.DaysFoldLists | tools.py:430-438 | The fold over days appends the contributions of all items of all days, in order |
| Centroid.CoordinatesAreContributions | tools.py:427-438 | The lat and lng lists of the itinerary are exactly the contributions of its items |
| Centroid.ListsOfAppend | tools.py:427-438 | Contributions of `a + b` are those of `a` followed by those of `b` |
| Centroid.ExtendTwice | tools.py:427-438 | Extending by `a` and then by `b` is extending by `a + b` |
| Centroid.LngsAtMostLats | tools.py:434-438 | There are never more lngs than lats |
| Centroid.LatKeptWithoutLng | tools.py:434-438 | An item whose lat parses but whose lng does not adds a lat and no lng |
| Centroid.NoContributionNoCentre | tools.py:440-441 | If no item adds a lat, both centres are None |
| Centroid.ZeroDivisionWhenNoLng | tools.py:440-446 | Once some item adds a lat, the centre raises ZeroDivisionError iff no item adds a lng |
| Centroid.NoneAddLng | tools.py:436 | The lng list is empty iff no item adds a lng |
| Centroid.Centre | tools.py:440-446 | No lats gives None; lats without lngs raises ZeroDivisionError; otherwise the centres are the means of the two lists |
| Centroid.CollectItems | tools.py:432-438 | The item loop computes exactly the item fold |
| Centroid.CollectDays | tools.py:430-438 | The nested day, block and item loops compute exactly the day fold from empty lists |
| Centroid.ComputeItineraryCentroid | tools.py:422-446 | The tool computes exactly clean, extract, parse, collect coordinates, then the centre |
| Cluster.GreedyClusters | tools.py:100-137 | On success the groups form a `Clustering` (see below); a failure implies a non-dict attraction or a raising distance call |
| Cluster.ClusterAttractions | tools.py:85-137 | Input errors are those of reading the attraction list; on success the output is `{"clusters": …}` over a `Clustering` of the list |
| Cluster.ExactlyOneGroup | tools.py:105-135 | In a clustering, every attraction with coordinates is in exactly one group, at exactly one position |
| Cluster.Expand | tools.py:114-129 | The inner loop grows the seed's group greedily: members later than the seed, not in earlier groups, within the threshold (`<=`), at most `max_per_day` (at least the seed); everything it passed over was taken, past a full group, without coordinates or farther than the threshold; `used` gains exactly the members |
| Cluster.GrowPast | tools.py:119-124 | Passing over a taken, coordinate-less or too-far attraction, or passing once the group is full, keeps the growing-group invariant |
| Cluster.GrowBy | tools.py:126-129 | Taking a near attraction keeps the growing-group invariant |
| Cluster.ShapeBy | tools.py:127-129 | Appending a near attraction to a group below capacity keeps its shape |
| Cluster.IncreasingSnoc | tools.py:128 | Members stay in input order |
| Cluster.CoordsSnoc | tools.py:123-128 | Members all have coordinates |
| Cluster.NearSnoc | tools.py:126-128 | Every non-seed member is within the threshold of the seed |
| Cluster.PassTaken | tools.py:106-107 | Skipping a used attraction keeps the outer-loop invariant |
| Cluster.PassBare | tools.py:109-112 | An attraction without coordinates is marked used and lands in no group |
| Cluster.CloseGroup | tools.py:114-135 | Closing a group with the next `day_index` keeps the outer-loop invariant |
| Cluster.AddGroup | tools.py:131-135 | The closed groups stay disjoint, seeded in input order, greedy and numbered 1, 2, 3, … |
| Cluster.InSomeHasCoords | tools.py:110-124 | Only attractions with coordinates are in any group |
| Cluster.InBeforeAppend | tools.py:131-134 | Appending a group does not change membership in the earlier ones |
| Cluster.InSomeAppend | tools.py:131-134 | After appending a group, an attraction is grouped iff it was before or is in the new group |
| Cluster.AttractionList | tools.py:94-100 | A str input that does not parse raises ValueError; on success the list is `attractions` (or empty when absent or empty); other failures are AttributeError, KeyError or TypeError as `.get`, `len` and indexing raise them |
| Price.ParsePrice | tools.py:141-161 | None, lists and dicts give None; a number or bool gives its value; a str gives None iff it has no `[0-9.]` character, a non-negative value from its first run, or ValueError when `float` rejects the run |
| Price.StringPrice | tools.py:156-160 | A str is parsed through its leftmost maximal run of `[0-9.]` |
| Price.RunPrefix | tools.py:157 | The maximal run of price characters at the start of a string |
| Price.FirstRun | tools.py:157-159 | None iff the string has no price character; otherwise the leftmost maximal run |
| Price.DecimalValue | tools.py:160 | `float` of a run succeeds iff it has at most one dot and some digit, with a non-negative value |
| Price.CountSplit | tools.py:160 | Dots in `a + "." + b` are those of `a`, one, and those of `b` |
| Price.DotFree | tools.py:160 | A run without a dot has only digits |
| Price.DigitOf | tools.py:160 | A digit's value is its place in "0123456789" |
| Price.DollarPrice | tools.py:156-160 | `"$118"` parses to 118.0 |
| Price.ThousandsSeparator | tools.py:156-160 | `"$1,234"` parses to 1.0: the comma ends the run |
| Price.TwoDots | tools.py:156-160 | `"1.2.3"` makes `float` raise ValueError |
| Search.Collect | tools.py:198-233 | The shared skip-or-append loop only extends its accumulator, by at most one record per element |
| Search.CollectAcc | tools.py:198-233 | Starting from a non-empty accumulator prefixes the result |
| Search.CollectSplit | tools.py:198-233 | The loop over `a + b` is the loop over `a`, continued over `b` |
| Search.CollectAppend | tools.py:198-233 | Records of `a + b` are those of `a` followed by those of `b`; an error in `a` comes first |
| Search.CollectOne | tools.py:198-233 | One element gives its step's records or its error |
| Search.CollectOk | tools.py:198-233 | The loop succeeds iff no element's step raises |
| Search.CollectKept | tools.py:198-233 | Every appended record is the kept record of some input element |
| Search.FlightRaw | tools.py:195 | The raw list is `best_flights` followed by `other_flights`, each `or []`; it raises unless both are lists |
| Search.Airport | tools.py:212-213 | Reading a segment's airport raises iff the segment is not a dict |
| Search.Airlines | tools.py:216-220 | The airline loop only extends the list it started with |
| Search.AirlinesDeduplicated | tools.py:216-220 | The loop succeeds iff every segment is a dict; the airlines have no two equal entries, keep those already there; every truthy airline is listed, and every listed one is a truthy airline of some segment |
| Search.AirlinesSplit | tools.py:216-220 | The airline loop over two stretches of segments is the loop over the first, then over the second from the list that gives |
| Search.AirlinesOrder | tools.py:216-220 | First-seen order: the airlines collected from the leading segments start, in the same order, the list collected from all of them |
| Search.CollectAirlines | tools.py:216-220 | The method's loop computes exactly the airline list from empty |
| Search.FareIsProduct | tools.py:206 | `total_price` is the parsed price times `num_people` |
| Search.FlightRecord | tools.py:223-233 | A normalised flight has a numeric `price` equal to that fare and carries the de-duplicated airlines |
| Search.FlightStepReadsSegments | tools.py:208-213 | A priced flight with a non-empty segment list is read through its segments |
| Search.FlightSkipped | tools.py:199-210 | A flight is skipped without raising iff it is a dict whose price is unparsable, or parses but has an empty or missing segment list |
| Search.SegmentsNeverSkip | tools.py:209-233 | A non-empty segment list never leads to `continue` |
| Search.SegmentsKept | tools.py:212-233 | A record built from segments is priced at the fare and has de-duplicated airlines |
| Search.FlightKept | tools.py:198-233 | A kept flight had a parsable price and a non-empty segment list; its record is priced at that price times the travellers, with de-duplicated airlines |
| Search.NormalizedPrices | tools.py:198-233 | Every normalised flight's price is some raw flight's parsed price times `num_people` |
| Search.KeptFlightPricedFrom | tools.py:198-233 | A kept flight is priced from its own raw flight |
| Search.ReadSegments | tools.py:208-233 | The method computes exactly the segment step |
| Search.NormalizeOne | tools.py:199-233 | The loop body computes exactly the flight step |
| Search.NormalizeFlights | tools.py:196-235 | The `normalized` loop computes exactly the normalisation |
| Search.NormalizedArePriced | tools.py:223-224 | Every normalised flight has a numeric `price` |
| Search.SearchOneWay | tools.py:195-235 | The one-way search raises unless both `best_flights` and `other_flights` (each `or []`) are lists |
| Search.SearchOneWayPrices | tools.py:195-235 | A successful one-way search read two lists, returns their normalisation, and every flight in it is priced at some raw flight's parsed price times `num_people` |
| Search.TripsWithMembers | tools.py:264-271 | For one outbound, the trips are exactly the returns whose summed price is within budget |
| Search.TripsMembers | tools.py:262-272 | A trip is listed iff it pairs some outbound and return whose prices sum to at most the budget |
| Search.TripsOrder | tools.py:263-264 | Trips are outbound-major: those of `a + b` are those of `a` followed by those of `b` |
| Search.TripTotal | tools.py:265-270 | Every trip's `total_price` is a number within the budget |
| Search.PairTrips | tools.py:262-272 | The nested loops compute exactly the trips of the priced outbound and return lists |
| Search.SearchRoundTrip | tools.py:259-272 | The round-trip search succeeds iff both one-way searches do |
| Search.SearchRoundTripMembers | tools.py:259-272 | After a successful round-trip search both flight lists are priced, and a trip is listed iff it pairs an outbound and a return whose prices sum to at most the budget |
| Search.RateRaw | tools.py:316 | Reading the nightly rate needs `h` to be a dict |
| Search.HotelRecord | tools.py:332-342 | A kept hotel's `total_price_num` is the computed total |
| Search.HotelSkipped | tools.py:316-326 | A hotel is skipped without raising iff its rate does not parse to a number, or the rate times the nights exceeds the budget |
| Search.HotelKept | tools.py:316-342 | A kept hotel had a parsable rate; its `total_price_num` is the rate times the nights and within the budget |
| Search.FirstTen | tools.py:345 | `output[:10]`: the first min(10, n) records |
| Search.FilteredHotels | tools.py:314-345 | The filtered list has exactly min(10, n) hotels for the n kept ones, is that prefix of the kept hotels in input order, and every entry is within the budget |
| Search.SearchHotels | tools.py:312-345 | Without a `properties` key the search returns `[]`; when iterating `properties` raises, the search raises that error |
| Search.SearchHotelsFiltered | tools.py:312-345 | A successful search returns exactly the first min(10, n) of the n kept properties, in order, each within the budget |
| Search.SelectHotels | tools.py:314-345 | The hotel loop and the cap compute exactly the filter |
| FlightAgent.AirportFor | flight_agent.py:12-24 | The lookup raises TypeError iff the city is unhashable; a code is returned only for an exact key of the table and maps that key to it; anything else gives None |
| FlightAgent.UnlistedCity | flight_agent.py:12-24 | "New York City" is not a key: its airport is None |
| FlightAgent.ListedCity | flight_agent.py:16 | "New York" maps to JFK |
| FlightAgent.FlightInput | flight_agent.py:61-71 | Building `flight_input` raises iff `trip_config` is not a dict or a city is unhashable; it builds a dict |
| FlightAgent.FlightInputContents | flight_agent.py:66-71 | `flight_input` has every `trip_config` key with its value, plus the two airport keys holding the looked-up codes, which override same-named keys; distinct keys stay distinct |
| FlightAgent.ExtractJsonText | flight_agent.py:38-46 | Raises ValueError iff the fence-free stripped text has no `{` before a `}`; otherwise the first-`{`-to-last-`}` span of that text |
| FlightAgent.BlankTextRaises | flight_agent.py:38-45 | Empty or blank text raises ValueError although there is no explicit empty check |
| HotelAgent.ExtractJsonText | hotel_agent.py:23-37 | Empty text raises the empty-output ValueError; otherwise ValueError iff no `{` before a `}` in the fence-free text, else the first-`{`-to-last-`}` span |
| PlannerAgent.ExtractJsonText | planner_agent.py:26-34 | Raises ValueError iff the fence-free text has no `{` before a `}`; otherwise the first-`{`-to-last-`}` span |
| PlannerAgent.SameAsFlightAgent | planner_agent.py:26-35 | The planner's extraction equals the flight agent's on every input |
| PlannerAgent.SameAsHotelAgent | planner_agent.py:26-35 | The planner's extraction equals the hotel agent's on every non-empty input; on empty input both raise ValueError with different reasons |
| Text.ObjectSpan | hotel_agent.py:33-37 | `re.search(r"\{[\s\S]*\}")`: none iff no `{` precedes a `}`; otherwise the span from the first `{` to the last `}`, inclusive |
| Text.SpanBetween | hotel_agent.py:33-37 | A `{` with none before it and a `}` with none after it delimit the matched span |
| Text.NoBracedPair | hotel_agent.py:34-35 | Without a first `{` before a last `}` there is no match |
| Text.RemoveAll | hotel_agent.py:29-30 | `re.sub` of a literal never lengthens the text |
| Text.RemoveAllAbsent | hotel_agent.py:29-30 | Text without the pattern is left unchanged |
| Text.RemoveAllFirst | hotel_agent.py:29-30 | The text before the first occurrence of the pattern is kept, that occurrence is deleted, and the removal continues after it |
| Text.Strip | hotel_agent.py:28 | `str.strip()`: a substring of the input with no whitespace at either end, and only whitespace before and after it in the input |
| Text.TrimStart | hotel_agent.py:28 | The suffix after the leading whitespace |
| Text.TrimEnd | hotel_agent.py:30 | The prefix before the trailing whitespace |
| Text.StripBlank | flight_agent.py:39 | Blank text strips to the empty string |
| Text.IndexOf | hotel_agent.py:33 | The first occurrence of a character, none iff it does not occur |
| Text.LastIndexOf | hotel_agent.py:33 | The last occurrence of a character, none iff it does not occur |
| Text.StripFencesEmpty | planner_agent.py:27-33 | The empty text stays empty after fence removal and has no match |
| Text.NotBefore | hotel_agent.py:33 | A character absent from a prefix occurs at none of its positions |
| Text.NotAfter | hotel_agent.py:33 | A character absent from a suffix occurs at none of its positions |
| Json.Lookup | checker_agent.py:154 | `d.get(k)` finds a value iff the key is present, and the value is stored under that key |
| Json.LookupAppend | formatter_agent.py:77-87 | Looking a key up in `a + b` finds `a`'s entry first |
| Json.Get | checker_agent.py:103 | `v.get(k, default)` raises AttributeError iff `v` is not a dict, and gives the default for a missing key |
| Json.Iter | checker_agent.py:105 | A `for` loop raises TypeError on None, bools and numbers, visits a list's elements, and a str's or dict's strs |
| Json.Chars | checker_agent.py:105 | Iterating a str visits its one-character strs |
| Json.Keys | checker_agent.py:105 | Iterating a dict visits its keys |
| Json.Len | checker_agent.py:111 | `len` is defined on lists, strs and dicts, and is positive iff the value is truthy |
| Json.First | checker_agent.py:55 | `v[0]` on a non-empty list is its first element; it succeeds only on a list or str |
| Json.AsNumber | checker_agent.py:66 | Numbers and bools take part in arithmetic, bools as 0 and 1 |
| Json.Contains | checker_agent.py:157 | `k in v` raises on non-containers and is key membership on a dict |
| Json.SetKey | flight_agent.py:67-71 | `{**d, k: v}` keeps the existing keys in place; a new key goes at the end |
| Json.SetKeyLookup | flight_agent.py:67-71 | After `{**d, k: v}`, `k` maps to `v` and every other key to its old value |
| Json.SetKeyKeys | flight_agent.py:67-71 | The keys afterwards are the old keys and `k`, distinct when the old ones were |
| Json.SetKeyAt | flight_agent.py:67-71 | With distinct keys, an existing key's pair is overwritten in place |
| Json.ParseWith | hotel_agent.py:38 | `json.loads` raises ValueError exactly when the parser rejects the text, and an earlier error propagates |
| Host.PyFloat | tools.py:435-436 | `float(v)` of a number or bool is its value; of None, a list or a dict it raises |
| Formatter.CollectAttractionNames | formatter_agent.py:106-115 | The nested day, block and item loops compute exactly the name list, or the error a non-dict day or non-iterable block raises |
| Formatter.AddItemNames | formatter_agent.py:112-115 | The item loop extends the names to those of all items seen so far |
| Formatter.AddDayNames | formatter_agent.py:111-115 | The block loop extends the names by the day's items, or ends with the first block's error |
| Formatter.Names | formatter_agent.py:112-115 | There are never more names than items |
| Formatter.NamesSnoc | formatter_agent.py:113-115 | One more item is one collection step |
| Formatter.NamesPrefix | formatter_agent.py:114-115 | Names already collected keep their places: first-occurrence order |
| Formatter.NamesDistinct | formatter_agent.py:114-115 | No two collected names are equal under `==` |
| Formatter.NamesFromItems | formatter_agent.py:113-115 | Every collected name is truthy and is the name of some item |
| Formatter.NamesComplete | formatter_agent.py:113-115 | Every truthy item name is in the list, or an equal one is |
| Formatter.NamesSkip | formatter_agent.py:113-114 | Non-dict items and missing or falsy names contribute nothing |
| Formatter.BlockItems | formatter_agent.py:112 | A day that is not a dict raises AttributeError |
| Formatter.EmptyBlock | formatter_agent.py:112 | A missing or falsy block contributes no items |
| Formatter.NoItinerary | formatter_agent.py:107-108 | A missing or falsy itinerary yields no names |
| Formatter.DayItemsOrder | formatter_agent.py:111-112 | A day's items are its morning, afternoon and evening items in that order; the day raises iff a block does |
| Formatter.AllItemsAppend | formatter_agent.py:110 | Days are visited in order; an error in an earlier day comes first |
| Formatter.ConcatAppend | formatter_agent.py:110-112 | The walk over `a + b` is the walk over `a`, then over `b` |
| Formatter.ConcatErrExtends | formatter_agent.py:110-112 | An error ends the walk with that error |
| Formatter.FencesOnlyAtStart | formatter_agent.py:144-147 | Fences are removed only when the stripped reply starts with "```" |
| Formatter.ParseDescriptions | formatter_agent.py:142-158 | Parsed iff a first-`{`-to-last-`}` span exists and parses, the result then being that parse; otherwise every collected name maps to "" (TypeError if a name is unhashable) |
| Formatter.Ellipsis | formatter_agent.py:85 | `s[:n] + "..."` has length min(n, len s) + 3, starts with that prefix and ends with "..." |
| Formatter.TripBase | formatter_agent.py:77-81 | The step record starts with `step`, `type` and `role`, and no content keys |
| Formatter.TripStep | formatter_agent.py:76-88 | Step i + 1 with type and role; `content_preview` (203 chars, the first 200 plus "...") iff the content is longer than 200, else the whole `content` iff non-empty |
| Formatter.DescriptionStep | formatter_agent.py:162-167 | Step i + 1 with type; `content_preview` iff non-empty content: whole when shorter than 300, else the first 300 plus "..." |
| Formatter.TripSteps | formatter_agent.py:75-88 | One trip step per message, in order |
| Formatter.DescriptionSteps | formatter_agent.py:161-167 | One description step per message, in order |
| Formatter.FinalContent | formatter_agent.py:70-71 | Reading the last message raises IndexError iff there are no messages |
| Formatter.FormatTrip | formatter_agent.py:69-96 | Raises iff no messages; the text is the last message's content; verbose adds the trace and the messages |
| Formatter.GenerateAttractionDescriptions | formatter_agent.py:106-171 | Errors of the name collection come first, then the empty reply; otherwise the descriptions are those of the reply or the fallback; verbose adds the trace and the messages |

## Left out

- LLM agents: building them and their `.invoke` calls are foreign calls. Their replies are inputs: message lists for the formatter, text for the extractors, and plan dicts for the checker.
- Network searches: the Google Places and SerpAPI requests, their pagination and `time.sleep`, are I/O. So is `search_attractions` with its `random.shuffle`. Only the list post-processing of the flight and hotel searches is modelled; the results dicts are inputs.
- Date parsing: `datetime.strptime` and the night count are left out; `nights` is an input.
- Haversine: great-circle distance is float trigonometry in a library, so it is the uninterpreted `Host.Env.dist`. It may raise, as the library does on a latitude or longitude out of range; the model does not say for which values. `cluster_attractions` calls the tool's `.run` with positional arguments; that call is an uninterpreted `Cluster.Distance`, which may raise.
- `json.loads` / `json.dumps`: library parsers, kept abstract. This includes the quote-unescaping `json.loads` in `clean_input`.
- `float()`: kept abstract on strs (`Host.Env.pyFloat`) and on tool arguments (`Host.Env.toolFloat`). Only `parse_price`'s digit-and-dot runs are given their exact decimal value.
- Floating point: prices, coordinates and means are exact reals, with no rounding.
- Checker messages: the `:.2f` / `; `-joined texts are not modelled. Each message is a constructor carrying its structured numbers and names.
- `re.findall(r"[\d\.]+")`: modelled for ASCII digits only. Python's `\d` also matches other Unicode decimal digits.
- `in` on lists: modelled by `==` only. Python also tests identity first, which matters only for NaN; the reals of this model have none.
- Centroid timing: the checker calls `compute_itinerary_centroid` once per hotel that needs it. The model computes it once before the hotel loop and uses it only where the source would call it. The tool is deterministic and its input does not change inside the loop, so the result and any exception are the same.
- `full_messages`: the agents' message objects are opaque. The model keeps only each message's `type` and `content` attributes.
- Untyped agent output: a `None` or non-str text passed to an extractor is not modelled. Reply texts are strings.
- Search.PriceOf: this total reader gives 0.0 to a flight without a numeric `price`. The pairing loop is only called on normalised flights, which always carry one (`Search.NormalizedArePriced`).
- Cluster.GreedyClusters and Cluster.ClusterAttractions: an error only implies that some attraction is not a dict or some distance call raised. The model does not state which attraction or pair of attractions raises first.
- Search.AirlinesDeduplicated, Formatter.NamesComplete and Formatter.NamesDistinct: de-duplication is stated up to Python `==`, which is what `not in` tests. First-seen order is stated by `Search.AirlinesOrder` and `Formatter.NamesPrefix`.
- Duplicate keys: a `JObject` can hold a key twice, though `json.loads` keeps only the last one. `Json.Lookup` takes the first. No stated property depends on which one is kept.
- Prompt and comment rules: prompts.py asks for at most 4 attractions per day, but the checker enforces 5. The hotel rule's comment says 15 km, but it enforces 10. The model follows the enforced values (checker_agent.py:119, 193).
- Not part of this model: pipeline.py, api_server.py, user_input.py and prompts.py. They are agent calls in sequence, HTTP endpoints, console I/O and static prompt strings.
