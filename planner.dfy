/** The JSON extraction the planner agent applies to the model's final
    message, and how it compares with the other two agents' copies. */
module PlannerAgent {
  import opened Text
  import opened Json
  import HotelAgent
  import FlightAgent

  /** The text `_extract_json` hands to `json.loads`. */
  function ExtractJsonText(text: string): (r: Result<string>)
    ensures r.Err? <==> !HasBracedPair(StripFences(text))
    ensures r.Err? ==> r.error == ValueError(NoJsonObject)
    ensures r.Ok? ==> IsFirstToLastSpan(r.value, StripFences(text))
  {
    match ObjectSpan(StripFences(text))
    case None => Err(ValueError(NoJsonObject))
    case Some(span) => Ok(span)
  }

  /** `_extract_json(text)`. */
  function ExtractJson(text: string, loads: string -> Option<JsonValue>): Result<JsonValue> {
    ParseWith(loads, ExtractJsonText(text))
  }

  /** The planner's and the flight agent's copies agree on every input. */
  lemma SameAsFlightAgent(text: string, loads: string -> Option<JsonValue>)
    ensures ExtractJson(text, loads) == FlightAgent.ExtractJson(text, loads)
  {
  }

  /** The planner's and the hotel agent's copies agree on every non-empty
      input; on the empty input both raise `ValueError`, with different
      messages. */
  lemma SameAsHotelAgent(text: string, loads: string -> Option<JsonValue>)
    ensures |text| > 0 ==> ExtractJson(text, loads) == HotelAgent.ExtractJson(text, loads)
    ensures |text| == 0 ==>
      ExtractJson(text, loads) == Err(ValueError(NoJsonObject)) &&
      HotelAgent.ExtractJson(text, loads) == Err(ValueError(EmptyOutput))
  {
    if |text| == 0 {
      assert text == [];
      StripFencesEmpty();
    } else {
      assert ExtractJsonText(text) == HotelAgent.ExtractJsonText(text);
    }
  }
}
