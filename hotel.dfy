/** The JSON extraction the hotel agent applies to the model's final message. */
module HotelAgent {
  import opened Text
  import opened Json

  /** The text `extract_json` hands to `json.loads`: empty text is refused
      first, then fences are removed and the first-`{`-to-last-`}` span is
      taken. */
  function ExtractJsonText(text: string): (r: Result<string>)
    ensures |text| == 0 ==> r == Err(ValueError(EmptyOutput))
    ensures |text| > 0 ==> (r.Err? <==> !HasBracedPair(StripFences(text)))
    ensures |text| > 0 && r.Err? ==> r.error == ValueError(NoJsonObject)
    ensures r.Ok? ==> IsFirstToLastSpan(r.value, StripFences(text))
  {
    if |text| == 0 then Err(ValueError(EmptyOutput))
    else
      match ObjectSpan(StripFences(text))
      case None => Err(ValueError(NoJsonObject))
      case Some(span) => Ok(span)
  }

  /** `extract_json(text)`. */
  function ExtractJson(text: string, loads: string -> Option<JsonValue>): Result<JsonValue> {
    ParseWith(loads, ExtractJsonText(text))
  }
}
