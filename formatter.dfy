/** The deterministic parts of the formatter agent: collecting the attraction
    names of an itinerary, reading the description mapping out of the model's
    reply (with its fallback), and the execution traces with their content
    previews. The model call itself is replaced by the list of messages it
    returned. */
module Formatter {
  import opened Text
  import opened Json

  /** The blocks of a day, in the order they are visited. */
  const Blocks: seq<string> := ["morning", "afternoon", "evening"]

  // ---------------------------------------------------------------------------
  // Attraction names
  // ---------------------------------------------------------------------------

  /** `item.get("name") if isinstance(item, dict) else None`. */
  function ItemName(item: JsonValue): JsonValue {
    if item.JObject? then Lookup(item.fields, "name").GetOr(JNull) else JNull
  }

  /** One step of the collection: a truthy name not already `in` the list is
      appended. */
  function AddName(names: seq<JsonValue>, name: JsonValue): seq<JsonValue> {
    if Truthy(name) && !InList(name, names) then names + [name] else names
  }

  /** The names collected from `items`, visited in order. */
  function Names(items: seq<JsonValue>): (r: seq<JsonValue>)
    ensures |r| <= |items|
  {
    if |items| == 0 then [] else AddName(Names(items[..|items| - 1]), ItemName(items[|items| - 1]))
  }

  /** `day.get(block, []) or []`, as the `for` loop iterates it. */
  function BlockItems(day: JsonValue, block: string): (r: Result<seq<JsonValue>>)
    ensures !day.JObject? ==> r == Err(AttributeError)
  {
    var v :- Get(day, block, JArray([]));
    Iter(OrElse(v, JArray([])))
  }

  /** The blocks of `day` as the middle loop reads them. */
  function BlockReader(day: JsonValue): string -> Result<seq<JsonValue>> {
    block => BlockItems(day, block)
  }

  /** The items `read` gives for each of `xs`, concatenated in order; the
      first one that raises ends the walk with its error. */
  function ConcatItems<T>(read: T -> Result<seq<JsonValue>>, xs: seq<T>): Result<seq<JsonValue>> {
    if |xs| == 0 then Ok([])
    else
      var front :- ConcatItems(read, xs[..|xs| - 1]);
      var last :- read(xs[|xs| - 1]);
      Ok(front + last)
  }

  /** The items of one day: morning, then afternoon, then evening. */
  function DayItems(day: JsonValue): Result<seq<JsonValue>> {
    ConcatItems(BlockReader(day), Blocks)
  }

  /** The days as the outer loop reads them. */
  function DayReader(): JsonValue -> Result<seq<JsonValue>> {
    day => DayItems(day)
  }

  /** The items of all days, day after day. */
  function AllItems(days: seq<JsonValue>): Result<seq<JsonValue>> {
    ConcatItems(DayReader(), days)
  }

  /** `itinerary = pipeline_result.get("itinerary", {}) or {}` and
      `itinerary.get("days", [])`, as the `for` loop iterates it. */
  function Days(pipeline: Fields): Result<seq<JsonValue>> {
    var itinerary := OrElse(Lookup(pipeline, "itinerary").GetOr(JObject([])), JObject([]));
    var days :- Get(itinerary, "days", JArray([]));
    Iter(days)
  }

  /** The name list `generate_attraction_descriptions` builds. */
  function AttractionNames(pipeline: Fields): Result<seq<JsonValue>> {
    var days :- Days(pipeline);
    var items :- AllItems(days);
    Ok(Names(items))
  }

  /** An error in one element ends the walk with that error. */
  lemma {:induction false} ConcatErrExtends<T>(read: T -> Result<seq<JsonValue>>, xs: seq<T>, n: nat)
    requires n <= |xs| && ConcatItems(read, xs[..n]).Err?
    ensures ConcatItems(read, xs) == ConcatItems(read, xs[..n])
    decreases |xs| - n
  {
    if n < |xs| {
      assert xs[..n + 1][..n] == xs[..n];
      ConcatErrExtends(read, xs, n + 1);
    } else {
      assert xs[..n] == xs;
    }
  }

  /** Adding one more item to the visited ones is one collection step. */
  lemma NamesSnoc(items: seq<JsonValue>, x: JsonValue)
    ensures Names(items + [x]) == AddName(Names(items), ItemName(x))
  {
    assert (items + [x])[..|items|] == items;
  }

  /** The innermost loop: visit the items of one block. */
  method AddItemNames(attractions: seq<JsonValue>, ghost seen: seq<JsonValue>, items: seq<JsonValue>)
    returns (names: seq<JsonValue>)
    requires attractions == Names(seen)
    ensures names == Names(seen + items)
  {
    names := attractions;
    var k := 0;
    assert seen + items[..0] == seen;
    while k < |items|
      invariant 0 <= k <= |items|
      invariant names == Names(seen + items[..k])
    {
      var item := items[k];
      var name := if item.JObject? then Lookup(item.fields, "name").GetOr(JNull) else JNull;
      NamesSnoc(seen + items[..k], item);
      assert seen + items[..k + 1] == seen + items[..k] + [item];
      if Truthy(name) && !InList(name, names) {
        names := names + [name];
      }
      k := k + 1;
    }
    assert items[..k] == items;
  }

  /** The loop over the blocks of one day. */
  method AddDayNames(attractions: seq<JsonValue>, ghost seen: seq<JsonValue>,
                     read: string -> Result<seq<JsonValue>>, blocks: seq<string>)
    returns (r: Result<seq<JsonValue>>)
    requires attractions == Names(seen)
    ensures ConcatItems(read, blocks).Err? ==> r == Err(ConcatItems(read, blocks).error)
    ensures ConcatItems(read, blocks).Ok? ==> r == Ok(Names(seen + ConcatItems(read, blocks).value))
  {
    var names := attractions;
    ghost var daySeen: seq<JsonValue> := [];
    assert seen + daySeen == seen;
    var b := 0;
    while b < |blocks|
      invariant 0 <= b <= |blocks|
      invariant ConcatItems(read, blocks[..b]) == Ok(daySeen)
      invariant names == Names(seen + daySeen)
    {
      assert blocks[..b + 1][..b] == blocks[..b];
      var items := read(blocks[b]);
      if items.Err? {
        ConcatErrExtends(read, blocks, b + 1);
        return Err(items.error);
      }
      names := AddItemNames(names, seen + daySeen, items.value);
      assert seen + daySeen + items.value == seen + (daySeen + items.value);
      daySeen := daySeen + items.value;
      b := b + 1;
    }
    assert blocks[..b] == blocks;
    r := Ok(names);
  }

  /** The nested loops of `generate_attraction_descriptions` over days,
      blocks and items, building the name list. */
  method CollectAttractionNames(pipeline: Fields) returns (r: Result<seq<JsonValue>>)
    ensures r == AttractionNames(pipeline)
  {
    var days := Days(pipeline);
    if days.Err? {
      return Err(days.error);
    }
    var dayList := days.value;
    var attractions: seq<JsonValue> := [];
    ghost var seen: seq<JsonValue> := [];
    var d := 0;
    while d < |dayList|
      invariant 0 <= d <= |dayList|
      invariant ConcatItems(DayReader(), dayList[..d]) == Ok(seen)
      invariant attractions == Names(seen)
    {
      var day := dayList[d];
      ghost var upTo := dayList[..d + 1];
      assert upTo[..d] == dayList[..d] && upTo[d] == day;
      var next := AddDayNames(attractions, seen, BlockReader(day), Blocks);
      if next.Err? {
        ConcatErrExtends(DayReader(), dayList, d + 1);
        return Err(next.error);
      }
      attractions := next.value;
      seen := seen + DayItems(day).value;
      d := d + 1;
    }
    assert dayList[..d] == dayList;
    r := Ok(attractions);
  }

  /** A day's items are its morning items, then its afternoon items, then
      its evening items; any block that raises makes the day raise. */
  lemma DayItemsOrder(day: JsonValue)
    ensures DayItems(day).Ok? <==>
      BlockItems(day, "morning").Ok? && BlockItems(day, "afternoon").Ok? && BlockItems(day, "evening").Ok?
    ensures DayItems(day).Ok? ==>
      DayItems(day).value ==
        BlockItems(day, "morning").value + BlockItems(day, "afternoon").value + BlockItems(day, "evening").value
  {
    var m, a, e := BlockItems(day, "morning"), BlockItems(day, "afternoon"), BlockItems(day, "evening");
    var b1, b2 := Blocks[..1], Blocks[..2];
    assert b1[..0] == [] && b1[0] == "morning";
    assert b2[..1] == b1 && b2[1] == "afternoon";
    assert Blocks[..2] == b2 && Blocks[2] == "evening";
    assert ConcatItems(BlockReader(day), b1) == if m.Ok? then Ok([] + m.value) else Err(m.error);
    assert m.Ok? ==> [] + m.value == m.value;
    assert ConcatItems(BlockReader(day), b2) == if m.Ok? && a.Ok? then Ok(m.value + a.value) else if m.Err? then Err(m.error) else Err(a.error);
  }

  /** Days are visited in order: the items of `a + b` are those of `a`
      followed by those of `b`, and an error in `a` comes first. */
  lemma AllItemsAppend(a: seq<JsonValue>, b: seq<JsonValue>)
    ensures AllItems(a).Err? ==> AllItems(a + b) == AllItems(a)
    ensures AllItems(a).Ok? && AllItems(b).Err? ==> AllItems(a + b) == AllItems(b)
    ensures AllItems(a).Ok? && AllItems(b).Ok? ==> AllItems(a + b) == Ok(AllItems(a).value + AllItems(b).value)
  {
    ConcatAppend(DayReader(), a, b);
  }

  /** The walk over `a + b` is the walk over `a`, then over `b`. */
  lemma {:induction false} ConcatAppend<T>(read: T -> Result<seq<JsonValue>>, a: seq<T>, b: seq<T>)
    ensures ConcatItems(read, a).Err? ==> ConcatItems(read, a + b) == ConcatItems(read, a)
    ensures ConcatItems(read, a).Ok? && ConcatItems(read, b).Err? ==> ConcatItems(read, a + b) == ConcatItems(read, b)
    ensures ConcatItems(read, a).Ok? && ConcatItems(read, b).Ok? ==>
      ConcatItems(read, a + b) == Ok(ConcatItems(read, a).value + ConcatItems(read, b).value)
    decreases |b|
  {
    if |b| == 0 {
      assert a + b == a;
      assert ConcatItems(read, a).Ok? ==> ConcatItems(read, a).value + [] == ConcatItems(read, a).value;
    } else {
      var b', x := b[..|b| - 1], b[|b| - 1];
      ConcatAppend(read, a, b');
      assert (a + b)[..|a + b| - 1] == a + b' && (a + b)[|a + b| - 1] == x;
      var fa, fb, rx := ConcatItems(read, a), ConcatItems(read, b'), read(x);
      if fa.Ok? && fb.Ok? && rx.Ok? {
        assert fa.value + fb.value + rx.value == fa.value + (fb.value + rx.value);
      }
    }
  }

  /** Names already collected keep their place when more items are visited:
      the list is kept in first-occurrence order. */
  lemma {:induction false} NamesPrefix(a: seq<JsonValue>, b: seq<JsonValue>)
    ensures Names(a) <= Names(a + b)
    decreases |b|
  {
    if |b| == 0 {
      assert a + b == a;
    } else {
      NamesPrefix(a, b[..|b| - 1]);
      assert (a + b)[..|a + b| - 1] == a + b[..|b| - 1];
    }
  }

  /** No name is collected twice: no two entries are equal under Python's
      `==`. */
  lemma {:induction false} NamesDistinct(items: seq<JsonValue>)
    ensures forall p, q :: 0 <= p < q < |Names(items)| ==> !PyEq(Names(items)[p], Names(items)[q])
  {
    if |items| > 0 {
      var front := items[..|items| - 1];
      NamesDistinct(front);
    }
  }

  /** Every collected name is truthy and is the name of one of the items. */
  lemma {:induction false} NamesFromItems(items: seq<JsonValue>)
    ensures forall k :: 0 <= k < |Names(items)| ==>
      Truthy(Names(items)[k]) && exists i :: 0 <= i < |items| && ItemName(items[i]) == Names(items)[k]
  {
    if |items| > 0 {
      var front := items[..|items| - 1];
      NamesFromItems(front);
      var r := Names(items);
      forall k | 0 <= k < |r|
        ensures Truthy(r[k]) && exists i :: 0 <= i < |items| && ItemName(items[i]) == r[k]
      {
        if k < |Names(front)| {
          var i :| 0 <= i < |front| && ItemName(front[i]) == Names(front)[k];
          assert items[i] == front[i];
        } else {
          assert ItemName(items[|items| - 1]) == r[k];
        }
      }
    }
  }

  /** Every truthy item name is collected: it is in the list, or something
      equal to it under `==` already was. */
  lemma {:induction false} NamesComplete(items: seq<JsonValue>)
    ensures forall i :: 0 <= i < |items| && Truthy(ItemName(items[i])) ==>
      ItemName(items[i]) in Names(items) || InList(ItemName(items[i]), Names(items))
  {
    if |items| > 0 {
      var front := items[..|items| - 1];
      var last := items[|items| - 1];
      NamesComplete(front);
      var r := Names(items);
      assert Names(front) <= r;
      forall i | 0 <= i < |items| && Truthy(ItemName(items[i]))
        ensures ItemName(items[i]) in r || InList(ItemName(items[i]), r)
      {
        if i < |front| {
          assert items[i] == front[i];
          var x := ItemName(items[i]);
          if x in Names(front) {
            assert x in r;
          } else {
            var k :| 0 <= k < |Names(front)| && PyEq(Names(front)[k], x);
            assert PyEq(r[k], x);
          }
        } else if InList(ItemName(last), Names(front)) {
          var k :| 0 <= k < |Names(front)| && PyEq(Names(front)[k], ItemName(last));
          assert PyEq(r[k], ItemName(last));
        } else {
          assert r[|r| - 1] == ItemName(last);
        }
      }
    }
  }

  /** Items that are not dicts, or whose name is missing or falsy,
      contribute nothing. */
  lemma NamesSkip(items: seq<JsonValue>, x: JsonValue)
    requires !Truthy(ItemName(x))
    ensures Names(items + [x]) == Names(items)
  {
    NamesSnoc(items, x);
  }

  /** A missing or falsy block of a dict day contributes no items. */
  lemma EmptyBlock(day: JsonValue, block: string)
    requires day.JObject? && !Truthy(Lookup(day.fields, block).GetOr(JNull))
    ensures BlockItems(day, block) == Ok([])
  {
  }

  /** A missing or falsy itinerary yields no names. */
  lemma NoItinerary(pipeline: Fields)
    requires !Truthy(Lookup(pipeline, "itinerary").GetOr(JNull))
    ensures AttractionNames(pipeline) == Ok([])
  {
    var empty: Fields := [];
    assert Lookup(empty, "days") == None;
  }

  // ---------------------------------------------------------------------------
  // Descriptions
  // ---------------------------------------------------------------------------

  /** The parsed descriptions, or the fallback `{name: "" for name in names}`:
      every collected name mapped to the empty string. */
  datatype Descriptions = Parsed(value: JsonValue) | Blank(names: seq<JsonValue>)

  /** The text searched for the JSON object: the stripped reply, with its
      fences removed only when it starts with "```". */
  function DescriptionText(content: string): string {
    var text := Strip(content);
    if "```" <= text then StripFences(content) else text
  }

  /** Unlike the other agents, a reply that does not start with a fence
      keeps any "```" inside it. */
  lemma FencesOnlyAtStart(content: string)
    requires !("```" <= Strip(content))
    ensures DescriptionText(content) == Strip(content)
  {
  }

  /** The `try` block and its fallback. Building the fallback dict raises
      `TypeError` when a name is a list or dict. */
  function ParseDescriptions(loads: string -> Option<JsonValue>, content: string, names: seq<JsonValue>)
    : (r: Result<Descriptions>)
    ensures r.Ok? && r.value.Parsed? <==>
      HasBracedPair(DescriptionText(content)) && loads(ObjectSpan(DescriptionText(content)).value).Some?
    ensures r.Ok? && r.value.Parsed? ==>
      exists span :: IsFirstToLastSpan(span, DescriptionText(content)) && loads(span) == Some(r.value.value)
    ensures !r.Ok? || r.value.Blank? ==>
      r == if forall k :: 0 <= k < |names| ==> Hashable(names[k]) then Ok(Blank(names)) else Err(TypeError)
  {
    var span := ObjectSpan(DescriptionText(content));
    var parsed := if span.Some? then loads(span.value) else None;
    if parsed.Some? then Ok(Parsed(parsed.value))
    else if forall k :: 0 <= k < |names| ==> Hashable(names[k]) then Ok(Blank(names))
    else Err(TypeError)
  }

  // ---------------------------------------------------------------------------
  // Execution traces
  // ---------------------------------------------------------------------------

  /** A message of the agent's reply: its `type` and `content` attributes,
      `None` where the attribute is missing. */
  datatype Message = Message(kind: Option<string>, content: Option<string>)

  /** `getattr(msg, "type", "unknown")`. */
  function KindOf(m: Message): string {
    m.kind.GetOr("unknown")
  }

  /** `s[:n] + "..."`. */
  function Ellipsis(s: string, n: nat): (r: string)
    ensures |r| == if n <= |s| then n + 3 else |s| + 3
    ensures r[|r| - 3..] == "..." && s[..if n <= |s| then n else |s|] <= r
  {
    (if n <= |s| then s[..n] else s) + "..."
  }

  /** The fields every `format_trip` step starts with. */
  function TripBase(step: real, kind: string): (r: Fields)
    ensures Lookup(r, "step") == Some(JNum(step))
    ensures Lookup(r, "type") == Some(JStr(kind)) && Lookup(r, "role") == Some(JStr(kind))
    ensures !HasKey(r, "content_preview") && !HasKey(r, "content")
  {
    var r: Fields := [("step", JNum(step)), ("type", JStr(kind)), ("role", JStr(kind))];
    assert r[1..][1..] == r[2..];
    assert Lookup(r, "role") == Lookup(r[1..], "role") == Lookup(r[2..], "role");
    assert Lookup(r, "content") == Lookup(r[1..], "content") == Lookup(r[2..], "content");
    assert Lookup(r, "content_preview") == Lookup(r[1..], "content_preview") == Lookup(r[2..], "content_preview");
    r
  }

  /** The step record `format_trip` builds for message `i`. */
  function TripStep(i: nat, m: Message): (r: JsonValue)
    ensures r.JObject? && Lookup(r.fields, "step") == Some(JNum((i + 1) as real))
    ensures Lookup(r.fields, "type") == Some(JStr(KindOf(m))) && Lookup(r.fields, "role") == Some(JStr(KindOf(m)))
    ensures HasKey(r.fields, "content_preview") <==> m.content.Some? && |m.content.value| > 200
    ensures HasKey(r.fields, "content") <==> m.content.Some? && 0 < |m.content.value| <= 200
    ensures m.content.Some? && |m.content.value| > 200 ==>
      var p := Lookup(r.fields, "content_preview").value;
      p.JStr? && |p.s| == 203 && m.content.value[..200] <= p.s
    ensures m.content.Some? && 0 < |m.content.value| <= 200 ==>
      Lookup(r.fields, "content") == Some(JStr(m.content.value))
  {
    var base := TripBase((i + 1) as real, KindOf(m));
    if m.content.Some? && |m.content.value| > 0 then
      var c := m.content.value;
      var extra: Fields := if |c| > 200 then [("content_preview", JStr(Ellipsis(c, 200)))] else [("content", JStr(c))];
      LookupAppend(base, extra, "step");
      LookupAppend(base, extra, "type");
      LookupAppend(base, extra, "role");
      LookupAppend(base, extra, "content_preview");
      LookupAppend(base, extra, "content");
      JObject(base + extra)
    else
      JObject(base)
  }

  /** The step record `generate_attraction_descriptions` builds for
      message `i`. */
  function DescriptionStep(i: nat, m: Message): (r: JsonValue)
    ensures r.JObject? && Lookup(r.fields, "step") == Some(JNum((i + 1) as real))
    ensures Lookup(r.fields, "type") == Some(JStr(KindOf(m)))
    ensures HasKey(r.fields, "content_preview") <==> m.content.Some? && |m.content.value| > 0
    ensures m.content.Some? && 0 < |m.content.value| < 300 ==>
      Lookup(r.fields, "content_preview") == Some(JStr(m.content.value))
    ensures m.content.Some? && |m.content.value| >= 300 ==>
      var p := Lookup(r.fields, "content_preview").value;
      p.JStr? && |p.s| == 303 && m.content.value[..300] <= p.s
  {
    var base: Fields := [("step", JNum((i + 1) as real)), ("type", JStr(KindOf(m)))];
    assert !HasKey(base, "content_preview");
    if m.content.Some? && |m.content.value| > 0 then
      var c := m.content.value;
      var extra: Fields := [("content_preview", JStr(if |c| < 300 then c else Ellipsis(c, 300)))];
      LookupAppend(base, extra, "step");
      LookupAppend(base, extra, "type");
      LookupAppend(base, extra, "content_preview");
      JObject(base + extra)
    else
      JObject(base)
  }

  /** The `execution_steps` loop of `format_trip`. */
  method TripSteps(messages: seq<Message>) returns (steps: seq<JsonValue>)
    ensures |steps| == |messages|
    ensures forall i :: 0 <= i < |messages| ==> steps[i] == TripStep(i, messages[i])
  {
    steps := [];
    var i := 0;
    while i < |messages|
      invariant 0 <= i <= |messages| && |steps| == i
      invariant forall k :: 0 <= k < i ==> steps[k] == TripStep(k, messages[k])
    {
      steps := steps + [TripStep(i, messages[i])];
      i := i + 1;
    }
  }

  /** The `execution_steps` loop of `generate_attraction_descriptions`. */
  method DescriptionSteps(messages: seq<Message>) returns (steps: seq<JsonValue>)
    ensures |steps| == |messages|
    ensures forall i :: 0 <= i < |messages| ==> steps[i] == DescriptionStep(i, messages[i])
  {
    steps := [];
    var i := 0;
    while i < |messages|
      invariant 0 <= i <= |messages| && |steps| == i
      invariant forall k :: 0 <= k < i ==> steps[k] == DescriptionStep(k, messages[k])
    {
      steps := steps + [DescriptionStep(i, messages[i])];
      i := i + 1;
    }
  }

  // ---------------------------------------------------------------------------
  // The two entry points
  // ---------------------------------------------------------------------------

  /** `getattr(result["messages"][-1], "content", "")`. */
  function FinalContent(messages: seq<Message>): (r: Result<string>)
    ensures r.Err? <==> |messages| == 0
  {
    if |messages| == 0 then Err(IndexError) else Ok(messages[|messages| - 1].content.GetOr(""))
  }

  /** What `format_trip` returns: the text, or with `verbose` the text, the
      trace and the messages. */
  datatype TripSummary =
    | Summary(text: string)
    | VerboseSummary(text: string, steps: seq<JsonValue>, messages: seq<Message>)

  /** `format_trip(pipeline_result, verbose)` once the agent has replied with
      `messages`. */
  method FormatTrip(messages: seq<Message>, verbose: bool) returns (r: Result<TripSummary>)
    ensures r.Err? <==> |messages| == 0
    ensures r.Ok? ==> r.value.text == FinalContent(messages).value
    ensures r.Ok? ==> (r.value.VerboseSummary? <==> verbose)
    ensures r.Ok? && verbose ==>
      r.value.messages == messages && |r.value.steps| == |messages| &&
      forall i :: 0 <= i < |messages| ==> r.value.steps[i] == TripStep(i, messages[i])
  {
    var text := FinalContent(messages);
    if text.Err? {
      return Err(text.error);
    }
    if verbose {
      var steps := TripSteps(messages);
      return Ok(VerboseSummary(text.value, steps, messages));
    }
    return Ok(Summary(text.value));
  }

  /** What `generate_attraction_descriptions` returns. */
  datatype DescriptionOutput =
    | Plain(descriptions: Descriptions)
    | VerboseDescriptions(descriptions: Descriptions, steps: seq<JsonValue>, messages: seq<Message>)

  /** `generate_attraction_descriptions(pipeline_result, verbose)` once the
      agent has replied with `messages`. */
  method GenerateAttractionDescriptions(pipeline: Fields, loads: string -> Option<JsonValue>,
                                        messages: seq<Message>, verbose: bool)
    returns (r: Result<DescriptionOutput>)
    ensures AttractionNames(pipeline).Err? ==> r == Err(AttractionNames(pipeline).error)
    ensures AttractionNames(pipeline).Ok? && |messages| == 0 ==> r == Err(IndexError)
    ensures AttractionNames(pipeline).Ok? && |messages| > 0 ==>
      var d := ParseDescriptions(loads, FinalContent(messages).value, AttractionNames(pipeline).value);
      (r.Err? <==> d.Err?) && (r.Ok? ==> r.value.descriptions == d.value && (r.value.VerboseDescriptions? <==> verbose))
    ensures r.Ok? && verbose ==>
      r.value.messages == messages && |r.value.steps| == |messages| &&
      forall i :: 0 <= i < |messages| ==> r.value.steps[i] == DescriptionStep(i, messages[i])
  {
    var names := CollectAttractionNames(pipeline);
    if names.Err? {
      return Err(names.error);
    }
    var content := FinalContent(messages);
    if content.Err? {
      return Err(content.error);
    }
    var descriptions := ParseDescriptions(loads, content.value, names.value);
    if descriptions.Err? {
      return Err(descriptions.error);
    }
    if verbose {
      var steps := DescriptionSteps(messages);
      return Ok(VerboseDescriptions(descriptions.value, steps, messages));
    }
    return Ok(Plain(descriptions.value));
  }
}
