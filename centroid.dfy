/** `compute_itinerary_centroid`: recover the itinerary from its serialised
    text, then average the coordinates of its attractions. */
module Centroid {
  import opened Text
  import opened Json
  import opened Host

  // ---------------------------------------------------------------- input

  /** The text is wrapped in a pair of double or of single quotes. */
  predicate Quoted(t: string) {
    |t| > 0 && ((t[0] == '"' && t[|t| - 1] == '"') || (t[0] == '\'' && t[|t| - 1] == '\''))
  }

  /** `clean_input`: strip, and unescape a quoted JSON string literal when
      `json.loads` accepts it. A literal that decodes to something other than
      a string makes the later `re.sub` raise. */
  function CleanInput(env: Env, text: string): (r: Result<string>)
    ensures !Quoted(Strip(text)) ==> r == Ok(Strip(text))
    ensures Quoted(Strip(text)) && env.loads(Strip(text)).None? ==> r == Ok(Strip(text))
    ensures r.Err? <==> Quoted(Strip(text)) && env.loads(Strip(text)).Some? && !env.loads(Strip(text)).value.JStr?
    ensures r.Err? ==> r.error == TypeError
  {
    var t := Strip(text);
    if Quoted(t) then
      match env.loads(t)
      case None => Ok(t)
      case Some(JStr(s)) => Ok(s)
      case Some(_) => Err(TypeError)
    else Ok(t)
  }

  /** `re.sub(r"```json|```", "", s)`: one left-to-right pass that deletes
      "```json" where it matches and otherwise "```". */
  function RemoveFenceMarks(s: string): (r: string)
    ensures |r| <= |s|
    decreases |s|
  {
    if |s| == 0 then s
    else if "```json" <= s then RemoveFenceMarks(s[7..])
    else if "```" <= s then RemoveFenceMarks(s[3..])
    else [s[0]] + RemoveFenceMarks(s[1..])
  }

  /** Text that starts with "```json" starts with "```". */
  lemma JsonMarkIsFence(s: string)
    ensures "```json" <= s ==> "```" <= s
  {
    if "```json" <= s {
      assert s[..3] == "```json"[..3];
    }
  }

  /** Text without "```" in it is left as it is. */
  lemma {:induction false} RemoveFenceMarksAbsent(s: string)
    ensures !IsSubstring("```", s) ==> RemoveFenceMarks(s) == s
    decreases |s|
  {
    if |s| > 0 && !IsSubstring("```", s) {
      assert !OccursAt("```", s, 0);
      JsonMarkIsFence(s);
      forall i | 0 <= i <= |s[1..]| - 3 && OccursAt("```", s[1..], i)
        ensures OccursAt("```", s, i + 1)
      {
        assert s[1..][i..i + 3] == s[i + 1..i + 4];
      }
      RemoveFenceMarksAbsent(s[1..]);
      assert s == [s[0]] + s[1..];
    }
  }

  /** Up to the first "```" the text is kept; there "```json" is dropped if it
      matches and "```" otherwise, and the pass carries on after it. With the
      case of no "```", this determines `RemoveFenceMarks` on every input. */
  lemma RemoveFenceMarksFirst(before: string, after: string)
    requires forall j :: 0 <= j < |before| ==> !OccursAt("```", before + "```" + after, j)
    ensures RemoveFenceMarks(before + "```" + after) ==
      before + RemoveFenceMarks(if "json" <= after then after[4..] else after)
  {
    assert before + "```" + after == before + ("```" + after);
    FenceFreePrefix(before, "```" + after);
    FenceAtStart(after);
  }

  /** A stretch in which no "```" starts is kept as it is. */
  lemma {:induction false} FenceFreePrefix(before: string, rest: string)
    requires forall j :: 0 <= j < |before| ==> !OccursAt("```", before + rest, j)
    ensures RemoveFenceMarks(before + rest) == before + RemoveFenceMarks(rest)
    decreases |before|
  {
    if |before| == 0 {
      assert before + rest == rest;
    } else {
      NoEarlierOccurrence(before, "```", rest);
      FenceFreePrefix(before[1..], rest);
      FenceFreeStep(before, rest);
    }
  }

  /** A marker at the start is dropped, with "json" after it if that follows. */
  lemma FenceAtStart(after: string)
    ensures RemoveFenceMarks("```" + after) == RemoveFenceMarks(if "json" <= after then after[4..] else after)
  {
    var s := "```" + after;
    assert "```" <= s && s[3..] == after;
    JsonAfterFence(after);
    if "json" <= after {
      assert s[7..] == after[4..];
    }
  }

  /** "```" and then `after` starts with "```json" iff `after` starts with "json". */
  lemma JsonAfterFence(after: string)
    ensures "```json" <= "```" + after <==> "json" <= after
  {
    var s := "```" + after;
    if "```json" <= s {
      assert after[..4] == s[3..7] == "```json"[3..];
    }
    if "json" <= after {
      assert s[..7] == "```" + after[..4];
    }
  }

  /** The inductive step of `FenceFreePrefix`. */
  lemma FenceFreeStep(before: string, rest: string)
    requires |before| > 0
    requires !OccursAt("```", before + rest, 0)
    requires RemoveFenceMarks(before[1..] + rest) == before[1..] + RemoveFenceMarks(rest)
    ensures RemoveFenceMarks(before + rest) == before + RemoveFenceMarks(rest)
  {
    FenceKeepsFirst(before, rest);
    ConsAppend(RemoveFenceMarks(before + rest), before, RemoveFenceMarks(before[1..] + rest), RemoveFenceMarks(rest));
  }

  /** A character that does not start a marker is kept. */
  lemma FenceKeepsFirst(before: string, rest: string)
    requires |before| > 0
    requires !OccursAt("```", before + rest, 0)
    ensures RemoveFenceMarks(before + rest) == [before[0]] + RemoveFenceMarks(before[1..] + rest)
  {
    var s := before + rest;
    assert !("```" <= s);
    JsonMarkIsFence(s);
    assert s[1..] == before[1..] + rest;
  }

  /** The one-pass removal differs from removing every "```json" and then every
      "```": the second pass can see markers that the first pass joined. */
  lemma {:induction false} OnePassDiffers()
    ensures RemoveFenceMarks("`````json`") == "``json`"
    ensures RemoveAll(RemoveAll("`````json`", "```json"), "```") == ""
  {
    OnePassKeepsJoined();
    SequentialRemovesJoined();
  }

  /** The one pass deletes the leading "```" and keeps what follows. */
  lemma {:induction false} OnePassKeepsJoined()
    ensures RemoveFenceMarks("`````json`") == "``json`"
  {
    var s := "`````json`";
    var t := s[3..];
    assert t == "``json`";
    assert s[..7][3] == '`' && "```json"[3] == 'j';
    assert s[..3] == "```";
    assert RemoveFenceMarks(s) == RemoveFenceMarks(t);
    forall i | 0 <= i <= |t| - 3 ensures t[i] != '`' || t[i + 1] != '`' || t[i + 2] != '`' {
      assert i == 0 || i == 1 || i == 2 || i == 3 || i == 4;
    }
    NoTriple(t);
    RemoveFenceMarksAbsent(t);
  }

  /** A text with no three backticks in a row has no "```" in it. */
  lemma NoTriple(t: string)
    requires forall i :: 0 <= i <= |t| - 3 ==> t[i] != '`' || t[i + 1] != '`' || t[i + 2] != '`'
    ensures !IsSubstring("```", t)
  {
    forall i | 0 <= i <= |t| - 3 ensures !OccursAt("```", t, i) {
      assert t[i..i + 3][0] == t[i] && t[i..i + 3][1] == t[i + 1] && t[i..i + 3][2] == t[i + 2];
    }
  }

  /** Removing "```json" first joins the rest into one more "```". */
  lemma {:induction false} SequentialRemovesJoined()
    ensures RemoveAll(RemoveAll("`````json`", "```json"), "```") == ""
  {
    var s := "`````json`";
    assert "```json" <= s[2..];
    assert RemoveAll(s[2..], "```json") == "`";
    assert RemoveAll(s[1..], "```json") == "``";
    assert RemoveAll(s, "```json") == "```";
    assert RemoveAll("```", "```") == "";
  }

  // -------------------------------------------------------- brace counting

  /** +1 for `{`, -1 for `}`, 0 otherwise. */
  function Step(c: char): int {
    if c == '{' then 1 else if c == '}' then -1 else 0
  }

  /** The brace count after scanning `s`. */
  function Depth(s: string): int {
    if |s| == 0 then 0 else Depth(s[..|s| - 1]) + Step(s[|s| - 1])
  }

  /** Position `e` holds a `}` that brings the count back to 0. */
  predicate ClosesAt(s: string, e: int) {
    0 <= e < |s| && s[e] == '}' && Depth(s[..e + 1]) == 0
  }

  /** The first position at or after `j` where the count closes. */
  function ClosingFrom(s: string, j: nat): (r: Option<nat>)
    requires j <= |s|
    ensures r.Some? ==> j <= r.value && ClosesAt(s, r.value) && forall k :: j <= k < r.value ==> !ClosesAt(s, k)
    ensures r.None? ==> forall k :: j <= k < |s| ==> !ClosesAt(s, k)
    decreases |s| - j
  {
    if j == |s| then None
    else if ClosesAt(s, j) then Some(j)
    else ClosingFrom(s, j + 1)
  }

  /** The span cut after the first `}` that closes the count; the whole span
      when the count never closes. */
  function Truncate(span: string): (r: string)
    ensures r <= span
  {
    match ClosingFrom(span, 0)
    case Some(e) => span[..e + 1]
    case None => span
  }

  /** The brace-counting loop of `extract_json`. */
  method TruncateAtBalance(span: string) returns (r: string)
    ensures r == Truncate(span)
  {
    var count := 0;
    var i := 0;
    while i < |span|
      invariant 0 <= i <= |span|
      invariant count == Depth(span[..i])
      invariant ClosingFrom(span, i) == ClosingFrom(span, 0)
    {
      assert span[..i + 1][..i] == span[..i];
      var ch := span[i];
      if ch == '{' {
        count := count + 1;
      } else if ch == '}' {
        count := count - 1;
        if count == 0 {
          assert ClosesAt(span, i);
          return span[..i + 1];
        }
      }
      i := i + 1;
    }
    r := span;
  }

  /** A span that opens with `{` and is cut at its closing brace is balanced:
      its count is 0 and every non-empty proper prefix has a positive count. */
  lemma {:induction false} TruncatedIsBalanced(span: string)
    requires |span| > 0 && span[0] == '{'
    requires ClosingFrom(span, 0).Some?
    ensures Depth(Truncate(span)) == 0
    ensures forall k :: 0 < k < |Truncate(span)| ==> Depth(Truncate(span)[..k]) > 0
  {
    var e := ClosingFrom(span, 0).value;
    var t := span[..e + 1];
    assert t == Truncate(span);
    assert span[..1][..0] == [];
    assert Depth(span[..1]) == 1;
    PositiveBefore(span, e, 1);
    forall k | 0 < k < |t| ensures Depth(t[..k]) > 0 {
      assert t[..k] == span[..k];
    }
  }

  /** Below the first closing position the count stays positive once it is. */
  lemma {:induction false} PositiveBefore(s: string, e: nat, k: nat)
    requires ClosingFrom(s, 0) == Some(e)
    requires 0 < k <= e && Depth(s[..k]) > 0
    ensures forall m :: k <= m <= e ==> Depth(s[..m]) > 0
    decreases e - k
  {
    if k < e {
      assert s[..k + 1][..k] == s[..k];
      assert Depth(s[..k + 1]) == Depth(s[..k]) + Step(s[k]);
      assert !ClosesAt(s, k);
      PositiveBefore(s, e, k + 1);
    }
  }

  /** The cut removes what follows the first balanced object. */
  lemma TrailingBraceDropped()
    ensures Truncate("{}}") == "{}"
  {
    assert "{}}"[..2][..1] == "{" && "{}}"[..2] == "{}" && "{"[..0] == "";
    assert ClosesAt("{}}", 1);
  }

  /** `extract_json` up to `json.loads`: remove fences, strip, take the
      first-`{`-to-last-`}` span and cut it at its closing brace. */
  function ExtractJsonText(text: string): (r: Result<string>)
    ensures r.Err? <==> !HasBracedPair(Strip(RemoveFenceMarks(text)))
    ensures r.Err? ==> r.error == ValueError(NoJsonObject)
    ensures r.Ok? ==> exists span :: IsFirstToLastSpan(span, Strip(RemoveFenceMarks(text))) && r.value == Truncate(span)
  {
    match ObjectSpan(Strip(RemoveFenceMarks(text)))
    case None => Err(ValueError(NoJsonObject))
    case Some(span) => Ok(Truncate(span))
  }

  // ------------------------------------------------------------ coordinates

  /** The coordinates collected so far: `lat_list` and `lng_list`. */
  datatype Coords = Coords(lats: seq<real>, lngs: seq<real>)

  const Blocks: seq<string> := ["morning", "afternoon", "evening"]

  /** A dict item carrying both a `lat` and a `lng` key. */
  predicate HasBoth(item: JsonValue) {
    item.JObject? && HasKey(item.fields, "lat") && HasKey(item.fields, "lng")
  }

  function LatOf(env: Env, item: JsonValue): Option<real>
    requires HasBoth(item)
  {
    PyFloat(env, Lookup(item.fields, "lat").value)
  }

  function LngOf(env: Env, item: JsonValue): Option<real>
    requires HasBoth(item)
  {
    PyFloat(env, Lookup(item.fields, "lng").value)
  }

  /** One item of a block: the `in` tests raise for None, bools and numbers;
      a dict with both keys adds its lat when it converts, and then its lng
      when that converts too. Any failure inside the `try` is swallowed. */
  function ItemStep(env: Env, acc: Coords, item: JsonValue): (r: Result<Coords>)
    ensures r.Err? <==> item.JNull? || item.JBool? || item.JNum?
    ensures r.Err? ==> r.error == TypeError
    ensures r.Ok? && !HasBoth(item) ==> r.value == acc
  {
    // Once `"lat" in item` has not raised, `"lng" in item` cannot raise, and
    // only a dict survives the indexing inside the `try`.
    var hasLat :- Contains(item, "lat");
    if !hasLat || !HasBoth(item) then Ok(acc)
    else
        match LatOf(env, item)
        case None => Ok(acc)
        case Some(lat) =>
          match LngOf(env, item)
          case None => Ok(Coords(acc.lats + [lat], acc.lngs))
          case Some(lng) => Ok(Coords(acc.lats + [lat], acc.lngs + [lng]))
  }

  function ItemsFold(env: Env, acc: Coords, items: seq<JsonValue>): Result<Coords>
    decreases |items|
  {
    if |items| == 0 then Ok(acc)
    else
      var a :- ItemStep(env, acc, items[0]);
      ItemsFold(env, a, items[1..])
  }

  /** `for item in day.get(block, [])`. */
  function BlockStep(env: Env, acc: Coords, day: JsonValue, block: string): Result<Coords> {
    var v :- Get(day, block, JArray([]));
    var items :- Iter(v);
    ItemsFold(env, acc, items)
  }

  function BlocksFold(env: Env, acc: Coords, day: JsonValue, blocks: seq<string>): Result<Coords>
    decreases |blocks|
  {
    if |blocks| == 0 then Ok(acc)
    else
      var a :- BlockStep(env, acc, day, blocks[0]);
      BlocksFold(env, a, day, blocks[1..])
  }

  function DaysFold(env: Env, acc: Coords, days: seq<JsonValue>, blocks: seq<string>): Result<Coords>
    decreases |days|
  {
    if |days| == 0 then Ok(acc)
    else
      var a :- BlocksFold(env, acc, days[0], blocks);
      DaysFold(env, a, days[1..], blocks)
  }

  /** The coordinate lists of the parsed itinerary. */
  function Coordinates(env: Env, itinerary: JsonValue): Result<Coords> {
    var days :- Get(itinerary, "days", JArray([]));
    var ds :- Iter(days);
    DaysFold(env, Coords([], []), ds, Blocks)
  }

  function Sum(xs: seq<real>): real {
    if |xs| == 0 then 0.0 else Sum(xs[..|xs| - 1]) + xs[|xs| - 1]
  }

  /** The centre from the two lists: none when no lat was kept, a division by
      zero when lats were kept but no lng, otherwise the two means. */
  function Centre(c: Coords): (r: Result<Option<(real, real)>>)
    ensures r == Ok(None) <==> |c.lats| == 0
    ensures r.Err? <==> |c.lats| > 0 && |c.lngs| == 0
    ensures r.Err? ==> r.error == ZeroDivisionError
    ensures r.Ok? && r.value.Some? ==>
      r.value.value.0 * (|c.lats| as real) == Sum(c.lats) && r.value.value.1 * (|c.lngs| as real) == Sum(c.lngs)
  {
    if |c.lats| == 0 then Ok(None)
    else if |c.lngs| == 0 then Err(ZeroDivisionError)
    else Ok(Some((Sum(c.lats) / (|c.lats| as real), Sum(c.lngs) / (|c.lngs| as real))))
  }

  /** `compute_itinerary_centroid(text)`: `None` stands for the dict whose two
      centres are `None`. */
  function ItineraryCentroid(env: Env, text: string): Result<Option<(real, real)>> {
    var cleaned :- CleanInput(env, text);
    var itinerary :- ParseWith(env.loads, ExtractJsonText(cleaned));
    var c :- Coordinates(env, itinerary);
    Centre(c)
  }

  // ------------------------------------------------- what the lists hold

  /** A dict item with both keys whose lat converts: it adds to `lat_list`. */
  predicate AddsLat(env: Env, item: JsonValue) {
    HasBoth(item) && LatOf(env, item).Some?
  }

  /** An item that adds to `lat_list` and whose lng converts too: it adds to
      `lng_list`. */
  predicate AddsLng(env: Env, item: JsonValue) {
    AddsLat(env, item) && LngOf(env, item).Some?
  }

  /** The lats of the items that add one, in item order. */
  function LatsOf(env: Env, items: seq<JsonValue>): seq<real> {
    if |items| == 0 then []
    else (if AddsLat(env, items[0]) then [LatOf(env, items[0]).value] else []) + LatsOf(env, items[1..])
  }

  /** The lngs of the items that add one, in item order. */
  function LngsOf(env: Env, items: seq<JsonValue>): seq<real> {
    if |items| == 0 then []
    else (if AddsLng(env, items[0]) then [LngOf(env, items[0]).value] else []) + LngsOf(env, items[1..])
  }

  /** The items of the three blocks of one day, in block order. */
  function DayItems(day: JsonValue, blocks: seq<string>): Result<seq<JsonValue>>
    decreases |blocks|
  {
    if |blocks| == 0 then Ok([])
    else
      var v :- Get(day, blocks[0], JArray([]));
      var items :- Iter(v);
      var rest :- DayItems(day, blocks[1..]);
      Ok(items + rest)
  }

  /** The items of all days, in day order. */
  function AllItems(days: seq<JsonValue>, blocks: seq<string>): Result<seq<JsonValue>>
    decreases |days|
  {
    if |days| == 0 then Ok([])
    else
      var items :- DayItems(days[0], blocks);
      var rest :- AllItems(days[1..], blocks);
      Ok(items + rest)
  }

  /** Every item the loops visit, in visiting order. */
  function ItineraryItems(itinerary: JsonValue): Result<seq<JsonValue>> {
    var days :- Get(itinerary, "days", JArray([]));
    var ds :- Iter(days);
    AllItems(ds, Blocks)
  }

  lemma {:induction false} ListsOfAppend(env: Env, a: seq<JsonValue>, b: seq<JsonValue>)
    ensures LatsOf(env, a + b) == LatsOf(env, a) + LatsOf(env, b)
    ensures LngsOf(env, a + b) == LngsOf(env, a) + LngsOf(env, b)
  {
    if |a| == 0 {
      assert a + b == b;
    } else {
      assert (a + b)[0] == a[0] && (a + b)[1..] == a[1..] + b;
      ListsOfAppend(env, a[1..], b);
    }
  }

  /** Extending by the contributions of `a` and then of `b` is extending by
      those of `a + b`. */
  lemma ExtendTwice(env: Env, acc: Coords, a: seq<JsonValue>, b: seq<JsonValue>)
    ensures var mid := Coords(acc.lats + LatsOf(env, a), acc.lngs + LngsOf(env, a));
      Coords(mid.lats + LatsOf(env, b), mid.lngs + LngsOf(env, b)) ==
      Coords(acc.lats + LatsOf(env, a + b), acc.lngs + LngsOf(env, a + b))
  {
    ListsOfAppend(env, a, b);
    assert acc.lats + LatsOf(env, a) + LatsOf(env, b) == acc.lats + (LatsOf(env, a) + LatsOf(env, b));
    assert acc.lngs + LngsOf(env, a) + LngsOf(env, b) == acc.lngs + (LngsOf(env, a) + LngsOf(env, b));
  }

  lemma {:induction false} ItemsFoldLists(env: Env, acc: Coords, items: seq<JsonValue>)
    requires ItemsFold(env, acc, items).Ok?
    ensures ItemsFold(env, acc, items).value ==
      Coords(acc.lats + LatsOf(env, items), acc.lngs + LngsOf(env, items))
    decreases |items|
  {
    if |items| > 0 {
      var a := ItemStep(env, acc, items[0]).value;
      ItemsFoldLists(env, a, items[1..]);
    }
  }

  lemma {:induction false} BlocksFoldLists(env: Env, acc: Coords, day: JsonValue, blocks: seq<string>)
    requires BlocksFold(env, acc, day, blocks).Ok?
    ensures DayItems(day, blocks).Ok?
    ensures BlocksFold(env, acc, day, blocks).value ==
      Coords(acc.lats + LatsOf(env, DayItems(day, blocks).value), acc.lngs + LngsOf(env, DayItems(day, blocks).value))
    decreases |blocks|
  {
    if |blocks| > 0 {
      var v := Get(day, blocks[0], JArray([]));
      assert v.Ok?;
      var items := Iter(v.value);
      assert items.Ok?;
      var step := ItemsFold(env, acc, items.value);
      assert step.Ok?;
      assert BlocksFold(env, acc, day, blocks) == BlocksFold(env, step.value, day, blocks[1..]);
      ItemsFoldLists(env, acc, items.value);
      BlocksFoldLists(env, step.value, day, blocks[1..]);
      var rest := DayItems(day, blocks[1..]).value;
      assert DayItems(day, blocks).value == items.value + rest;
      ExtendTwice(env, acc, items.value, rest);
    }
  }

  lemma {:induction false} DaysFoldLists(env: Env, acc: Coords, days: seq<JsonValue>, blocks: seq<string>)
    requires DaysFold(env, acc, days, blocks).Ok?
    ensures AllItems(days, blocks).Ok?
    ensures DaysFold(env, acc, days, blocks).value ==
      Coords(acc.lats + LatsOf(env, AllItems(days, blocks).value), acc.lngs + LngsOf(env, AllItems(days, blocks).value))
    decreases |days|
  {
    if |days| > 0 {
      var step := BlocksFold(env, acc, days[0], blocks);
      assert step.Ok?;
      assert DaysFold(env, acc, days, blocks) == DaysFold(env, step.value, days[1..], blocks);
      BlocksFoldLists(env, acc, days[0], blocks);
      DaysFoldLists(env, step.value, days[1..], blocks);
      var items := DayItems(days[0], blocks).value;
      var rest := AllItems(days[1..], blocks).value;
      assert AllItems(days, blocks).value == items + rest;
      ExtendTwice(env, acc, items, rest);
    }
  }

  /** When the loops finish, `lat_list` holds the lat of every item that adds
      one and `lng_list` the lng of every item that adds one, both in
      visiting order. */
  lemma CoordinatesAreContributions(env: Env, itinerary: JsonValue)
    requires Coordinates(env, itinerary).Ok?
    ensures ItineraryItems(itinerary).Ok?
    ensures var items := ItineraryItems(itinerary).value;
      Coordinates(env, itinerary).value == Coords(LatsOf(env, items), LngsOf(env, items))
  {
    var ds := Iter(Get(itinerary, "days", JArray([])).value).value;
    DaysFoldLists(env, Coords([], []), ds, Blocks);
  }

  /** Every kept lng comes with a kept lat, never the other way round. */
  lemma {:induction false} LngsAtMostLats(env: Env, items: seq<JsonValue>)
    ensures |LngsOf(env, items)| <= |LatsOf(env, items)|
  {
    if |items| > 0 {
      LngsAtMostLats(env, items[1..]);
    }
  }

  /** A lat that converts is kept even when its lng does not, so the two
      lists can differ in length. */
  lemma LatKeptWithoutLng(env: Env, item: JsonValue)
    requires HasBoth(item) && LatOf(env, item).Some? && LngOf(env, item).None?
    ensures LatsOf(env, [item]) == [LatOf(env, item).value] && LngsOf(env, [item]) == []
  {
  }

  /** No contributing item: both centres are `None`. */
  lemma {:induction false} NoContributionNoCentre(env: Env, items: seq<JsonValue>)
    requires forall k :: 0 <= k < |items| ==> !AddsLat(env, items[k])
    ensures Centre(Coords(LatsOf(env, items), LngsOf(env, items))) == Ok(None)
  {
    if |items| > 0 {
      NoContributionNoCentre(env, items[1..]);
    }
  }

  /** With at least one lat kept, the division by `len(lng_list)` raises
      exactly when no lng converted. */
  lemma {:induction false} ZeroDivisionWhenNoLng(env: Env, items: seq<JsonValue>)
    requires exists k :: 0 <= k < |items| && AddsLat(env, items[k])
    ensures Centre(Coords(LatsOf(env, items), LngsOf(env, items))).Err? <==>
      forall k :: 0 <= k < |items| ==> !AddsLng(env, items[k])
  {
    var k :| 0 <= k < |items| && AddsLat(env, items[k]);
    ListsOfAppend(env, items[..k], items[k..]);
    assert items == items[..k] + items[k..];
    assert |LatsOf(env, items[k..])| > 0;
    NoneAddLng(env, items);
  }

  lemma {:induction false} NoneAddLng(env: Env, items: seq<JsonValue>)
    ensures LngsOf(env, items) == [] <==> forall k :: 0 <= k < |items| ==> !AddsLng(env, items[k])
  {
    if |items| > 0 {
      NoneAddLng(env, items[1..]);
      assert forall k :: 0 < k < |items| ==> items[k] == items[1..][k - 1];
    }
  }

  // ------------------------------------------------------------- the loops

  method CollectItems(env: Env, acc: Coords, items: seq<JsonValue>) returns (r: Result<Coords>)
    ensures r == ItemsFold(env, acc, items)
  {
    var cur := acc;
    var i := 0;
    while i < |items|
      invariant 0 <= i <= |items|
      invariant ItemsFold(env, cur, items[i..]) == ItemsFold(env, acc, items)
    {
      assert items[i..][1..] == items[i + 1..];
      var step := ItemStep(env, cur, items[i]);
      if step.Err? {
        return Err(step.error);
      }
      cur := step.value;
      i := i + 1;
    }
    r := Ok(cur);
  }

  /** The nested loops over days, blocks and items that fill `lat_list` and
      `lng_list`. */
  method CollectDays(env: Env, days: seq<JsonValue>) returns (r: Result<Coords>)
    ensures r == DaysFold(env, Coords([], []), days, Blocks)
  {
    var cur := Coords([], []);
    var d := 0;
    while d < |days|
      invariant 0 <= d <= |days|
      invariant DaysFold(env, cur, days[d..], Blocks) == DaysFold(env, Coords([], []), days, Blocks)
    {
      assert days[d..][1..] == days[d + 1..];
      var day := days[d];
      var b := 0;
      var dayAcc := cur;
      while b < |Blocks|
        invariant 0 <= b <= |Blocks|
        invariant BlocksFold(env, dayAcc, day, Blocks[b..]) == BlocksFold(env, cur, day, Blocks)
      {
        assert Blocks[b..][1..] == Blocks[b + 1..];
        var v := Get(day, Blocks[b], JArray([]));
        if v.Err? {
          return Err(v.error);
        }
        var items := Iter(v.value);
        if items.Err? {
          return Err(items.error);
        }
        var next := CollectItems(env, dayAcc, items.value);
        if next.Err? {
          return next;
        }
        dayAcc := next.value;
        b := b + 1;
      }
      cur := dayAcc;
      d := d + 1;
    }
    r := Ok(cur);
  }

  /** The whole tool, with the two loops run as methods. */
  method ComputeItineraryCentroid(env: Env, text: string) returns (r: Result<Option<(real, real)>>)
    ensures r == ItineraryCentroid(env, text)
  {
    var cleaned := CleanInput(env, text);
    if cleaned.Err? {
      return Err(cleaned.error);
    }
    var t := Strip(RemoveFenceMarks(cleaned.value));
    var span := ObjectSpan(t);
    if span.None? {
      return Err(ValueError(NoJsonObject));
    }
    var jsonText := TruncateAtBalance(span.value);
    var parsed := ParseWith(env.loads, Ok(jsonText));
    if parsed.Err? {
      return Err(parsed.error);
    }
    var days := Get(parsed.value, "days", JArray([]));
    if days.Err? {
      return Err(days.error);
    }
    var ds := Iter(days.value);
    if ds.Err? {
      return Err(ds.error);
    }
    var c := CollectDays(env, ds.value);
    if c.Err? {
      return Err(c.error);
    }
    r := Centre(c.value);
  }
}
