/** JSON values as the agents see them after `json.loads`, and the few pieces of
    Python semantics the core relies on: truthiness, `dict.get`, iteration,
    `len`, indexing, arithmetic on numbers and bools, `==` and `in`. */
module Json {

  import opened Text

  /** Why a `ValueError` was raised. */
  datatype Reason =
    | EmptyOutput      // "Empty model output"
    | NoJsonObject     // the `{...}` search found nothing
    | InvalidJson      // `json.loads` rejected the text
    | BadFloat         // `float()` rejected the text
    | BadToolArgument  // a tool's float argument failed validation
    | BadCoordinate    // `haversine` rejected a latitude or longitude

  /** The Python exception kinds the core can raise. */
  datatype Error =
    | TypeError
    | AttributeError
    | KeyError
    | IndexError
    | ValueError(reason: Reason)
    | ZeroDivisionError

  datatype Result<+T> = Ok(value: T) | Err(error: Error) {
    predicate IsFailure() { Err? }
    function PropagateFailure<U>(): Result<U>
      requires Err?
    {
      Err(error)
    }
    function Extract(): T
      requires Ok?
    {
      value
    }
  }

  /** A JSON value. Objects keep their keys in insertion order, as Python
      dicts do; JSON integers and floats are both `JNum`. */
  datatype JsonValue =
    | JNull
    | JBool(b: bool)
    | JNum(n: real)
    | JStr(s: string)
    | JArray(items: seq<JsonValue>)
    | JObject(fields: seq<(string, JsonValue)>)

  type Fields = seq<(string, JsonValue)>

  /** Python's `bool(v)`. */
  predicate Truthy(v: JsonValue) {
    match v
    case JNull => false
    case JBool(b) => b
    case JNum(n) => n != 0.0
    case JStr(s) => |s| > 0
    case JArray(xs) => |xs| > 0
    case JObject(fs) => |fs| > 0
  }

  /** `v or default`. */
  function OrElse(v: JsonValue, default: JsonValue): JsonValue {
    if Truthy(v) then v else default
  }

  predicate HasKey(fields: Fields, key: string) {
    exists i :: 0 <= i < |fields| && fields[i].0 == key
  }

  /** The value stored under `key`: the first pair with that key. */
  function Lookup(fields: Fields, key: string): (r: Option<JsonValue>)
    ensures r.Some? <==> HasKey(fields, key)
    ensures r.Some? ==> exists i :: 0 <= i < |fields| && fields[i] == (key, r.value)
  {
    if |fields| == 0 then None
    else if fields[0].0 == key then Some(fields[0].1)
    else
      var r := Lookup(fields[1..], key);
      assert r.Some? ==> exists i :: 0 <= i < |fields| - 1 && fields[1..][i] == (key, r.value);
      assert HasKey(fields[1..], key) ==> HasKey(fields, key) by {
        if HasKey(fields[1..], key) {
          var i :| 0 <= i < |fields| - 1 && fields[1..][i].0 == key;
          assert fields[i + 1].0 == key;
        }
      }
      r
  }

  /** Looking a key up in `a + b`: the pairs of `a` come first. */
  lemma {:induction false} LookupAppend(a: Fields, b: Fields, key: string)
    ensures Lookup(a + b, key) == if HasKey(a, key) then Lookup(a, key) else Lookup(b, key)
  {
    if |a| > 0 {
      assert (a + b)[0] == a[0];
      if a[0].0 == key {
        assert HasKey(a, key);
      } else {
        assert (a + b)[1..] == a[1..] + b;
        LookupAppend(a[1..], b, key);
        assert Lookup(a, key) == Lookup(a[1..], key);
      }
    } else {
      assert a + b == b;
    }
  }

  /** `v.get(key, default)`: only dicts have `.get`. */
  function Get(v: JsonValue, key: string, default: JsonValue): (r: Result<JsonValue>)
    ensures r.Err? <==> !v.JObject?
    ensures v.JObject? && !HasKey(v.fields, key) ==> r == Ok(default)
  {
    if v.JObject? then Ok(Lookup(v.fields, key).GetOr(default)) else Err(AttributeError)
  }

  /** The one-character strings of `s`, which is what iterating a str yields. */
  function Chars(s: string): (r: seq<JsonValue>)
    ensures |r| == |s| && forall i :: 0 <= i < |s| ==> r[i] == JStr([s[i]])
  {
    seq(|s|, i requires 0 <= i < |s| => JStr([s[i]]))
  }

  /** The keys of a dict, which is what iterating a dict yields. */
  function Keys(fields: Fields): (r: seq<JsonValue>)
    ensures |r| == |fields| && forall i :: 0 <= i < |fields| ==> r[i] == JStr(fields[i].0)
  {
    seq(|fields|, i requires 0 <= i < |fields| => JStr(fields[i].0))
  }

  /** The elements a `for` loop over `v` visits. */
  function Iter(v: JsonValue): (r: Result<seq<JsonValue>>)
    ensures r.Err? <==> (v.JNull? || v.JBool? || v.JNum?)
    ensures v.JArray? ==> r == Ok(v.items)
    ensures r.Ok? && !v.JArray? ==> forall i :: 0 <= i < |r.value| ==> r.value[i].JStr?
  {
    match v
    case JArray(xs) => Ok(xs)
    case JStr(s) => Ok(Chars(s))
    case JObject(fs) => Ok(Keys(fs))
    case _ => Err(TypeError)
  }

  /** `len(v)`. */
  function Len(v: JsonValue): (r: Result<nat>)
    ensures r.Ok? <==> (v.JArray? || v.JStr? || v.JObject?)
    ensures r.Ok? ==> (r.value > 0 <==> Truthy(v))
  {
    match v
    case JArray(xs) => Ok(|xs|)
    case JStr(s) => Ok(|s|)
    case JObject(fs) => Ok(|fs|)
    case _ => Err(TypeError)
  }

  /** `v[0]`. JSON object keys are strings, so the integer key 0 is never
      present. */
  function First(v: JsonValue): (r: Result<JsonValue>)
    ensures v.JArray? && |v.items| > 0 ==> r == Ok(v.items[0])
    ensures r.Ok? ==> v.JArray? || v.JStr?
  {
    match v
    case JArray(xs) => if |xs| > 0 then Ok(xs[0]) else Err(IndexError)
    case JStr(s) => if |s| > 0 then Ok(JStr([s[0]])) else Err(IndexError)
    case JObject(_) => Err(KeyError)
    case _ => Err(TypeError)
  }

  /** The numeric value of `v` in arithmetic and comparisons; `bool` is a
      subclass of `int` in Python, so `True` counts as 1. */
  function AsNumber(v: JsonValue): (r: Option<real>)
    ensures r.Some? <==> (v.JNum? || v.JBool?)
  {
    match v
    case JNum(n) => Some(n)
    case JBool(b) => Some(if b then 1.0 else 0.0)
    case _ => None
  }

  /** Python's `==` on JSON values: numbers and bools compare by value, lists
      element by element, dicts key by key regardless of order. */
  predicate PyEq(a: JsonValue, b: JsonValue)
    decreases a
  {
    match a
    case JNull => b.JNull?
    case JBool(_) => AsNumber(b).Some? && AsNumber(a) == AsNumber(b)
    case JNum(_) => AsNumber(b).Some? && AsNumber(a) == AsNumber(b)
    case JStr(s) => b.JStr? && b.s == s
    case JArray(xs) =>
      b.JArray? && |xs| == |b.items| &&
      forall i :: 0 <= i < |xs| ==> PyEq(xs[i], b.items[i])
    case JObject(fs) =>
      b.JObject? && |fs| == |b.fields| &&
      forall i :: 0 <= i < |fs| ==>
        var other := Lookup(b.fields, fs[i].0);
        other.Some? && PyEq(fs[i].1, other.value)
  }

  /** `x in xs` for a list. */
  predicate InList(x: JsonValue, xs: seq<JsonValue>) {
    exists k :: 0 <= k < |xs| && PyEq(xs[k], x)
  }

  /** Only lists and dicts are unhashable among JSON values. */
  predicate Hashable(v: JsonValue) {
    !v.JArray? && !v.JObject?
  }

  /** `key in v` for a str key: dict membership, substring test on a str,
      element test on a list; numbers, bools and None are not containers. */
  function Contains(v: JsonValue, key: string): (r: Result<bool>)
    ensures r.Err? <==> (v.JNull? || v.JBool? || v.JNum?)
    ensures v.JObject? ==> r == Ok(HasKey(v.fields, key))
  {
    match v
    case JObject(fs) => Ok(HasKey(fs, key))
    case JStr(s) => Ok(IsSubstring(key, s))
    case JArray(xs) => Ok(InList(JStr(key), xs))
    case _ => Err(TypeError)
  }

  /** Keys of a dict are distinct; every dict `json.loads` builds is so. */
  predicate DistinctKeys(fields: Fields) {
    forall i, j :: 0 <= i < j < |fields| ==> fields[i].0 != fields[j].0
  }

  /** `{**fields, key: v}`: an existing key keeps its position and takes the
      new value; a new key goes at the end. */
  function SetKey(fields: Fields, key: string, v: JsonValue): (r: Fields)
    ensures |r| == if HasKey(fields, key) then |fields| else |fields| + 1
    ensures forall i :: 0 <= i < |fields| ==> r[i].0 == fields[i].0
    ensures !HasKey(fields, key) ==> r == fields + [(key, v)]
  {
    if |fields| == 0 then [(key, v)]
    else if fields[0].0 == key then [(key, v)] + fields[1..]
    else
      assert HasKey(fields, key) <==> HasKey(fields[1..], key) by {
        assert forall i :: 0 < i < |fields| ==> fields[i] == fields[1..][i - 1];
      }
      [fields[0]] + SetKey(fields[1..], key, v)
  }

  /** After `{**fields, key: v}`, `key` maps to `v` and every other key to
      what it mapped to before. */
  lemma {:induction false} SetKeyLookup(fields: Fields, key: string, v: JsonValue, k: string)
    ensures Lookup(SetKey(fields, key, v), k) == if k == key then Some(v) else Lookup(fields, k)
  {
    if |fields| > 0 && fields[0].0 != key {
      SetKeyLookup(fields[1..], key, v, k);
    }
  }

  /** The keys after `{**fields, key: v}` are the old keys and `key`, each once
      when the old ones were distinct. */
  lemma {:induction false} SetKeyKeys(fields: Fields, key: string, v: JsonValue)
    ensures forall k :: HasKey(SetKey(fields, key, v), k) <==> HasKey(fields, k) || k == key
    ensures DistinctKeys(fields) ==> DistinctKeys(SetKey(fields, key, v))
  {
    var r := SetKey(fields, key, v);
    forall k ensures HasKey(r, k) <==> HasKey(fields, k) || k == key {
      SetKeyLookup(fields, key, v, k);
    }
    if DistinctKeys(fields) {
      if HasKey(fields, key) {
        var p :| 0 <= p < |fields| && fields[p].0 == key;
        SetKeyAt(fields, key, v, p);
      }
    }
  }

  /** With distinct keys, `{**fields, key: v}` overwrites the one pair with
      that key. */
  lemma {:induction false} SetKeyAt(fields: Fields, key: string, v: JsonValue, p: nat)
    requires DistinctKeys(fields) && p < |fields| && fields[p].0 == key
    ensures SetKey(fields, key, v) == fields[p := (key, v)]
  {
    if p > 0 {
      assert fields[0].0 != key;
      SetKeyAt(fields[1..], key, v, p - 1);
      assert fields[p := (key, v)] == [fields[0]] + fields[1..][p - 1 := (key, v)];
    }
  }

  /** `json.loads(text)` for a `loads` that gives `None` where Python raises. */
  function ParseWith(loads: string -> Option<JsonValue>, text: Result<string>): (r: Result<JsonValue>)
    ensures text.Err? ==> r == Err(text.error)
    ensures text.Ok? ==> (r.Ok? <==> loads(text.value).Some?)
    ensures r.Ok? ==> r.value == loads(text.value).value
  {
    match text
    case Err(e) => Err(e)
    case Ok(t) =>
      match loads(t)
      case None => Err(ValueError(InvalidJson))
      case Some(v) => Ok(v)
  }
}
