/** `parse_price`: the price parser that the flight and hotel searches apply
    to the providers' price fields. */
module Price {
  import opened Text
  import opened Json

  predicate IsDigit(c: char) { '0' <= c <= '9' }

  /** A character of the class `[\d\.]`. */
  predicate IsPriceChar(c: char) { IsDigit(c) || c == '.' }

  /** `run` is the leftmost maximal run of price characters in `s`, starting
      at `i`. */
  predicate IsLeftmostRun(s: string, run: string, i: int) {
    && 0 <= i && i + |run| <= |s| && |run| > 0
    && run == s[i..i + |run|]
    && (forall k :: i <= k < i + |run| ==> IsPriceChar(s[k]))
    && (i + |run| == |s| || !IsPriceChar(s[i + |run|]))
    && (forall k :: 0 <= k < i ==> !IsPriceChar(s[k]))
  }

  /** The longest prefix of `s` made of price characters. */
  function RunPrefix(s: string): (r: string)
    ensures |r| <= |s| && r == s[..|r|]
    ensures forall k :: 0 <= k < |r| ==> IsPriceChar(r[k])
    ensures |r| == |s| || !IsPriceChar(s[|r|])
  {
    if |s| > 0 && IsPriceChar(s[0]) then [s[0]] + RunPrefix(s[1..]) else []
  }

  /** `re.findall(r"[\d\.]+", s)[0]`, or `None` when the list is empty. */
  function FirstRun(s: string): (r: Option<string>)
    ensures r.None? <==> forall k :: 0 <= k < |s| ==> !IsPriceChar(s[k])
    ensures r.Some? ==> exists i :: IsLeftmostRun(s, r.value, i)
  {
    if |s| == 0 then None
    else if IsPriceChar(s[0]) then
      var run := RunPrefix(s);
      assert IsLeftmostRun(s, run, 0);
      Some(run)
    else
      var r := FirstRun(s[1..]);
      assert forall k :: 0 < k < |s| ==> s[k] == s[1..][k - 1];
      if r.Some? then
        var i :| IsLeftmostRun(s[1..], r.value, i);
        assert s[1..][i..i + |r.value|] == s[i + 1..i + 1 + |r.value|];
        assert IsLeftmostRun(s, r.value, i + 1);
        r
      else r
  }

  function CountOf(s: string, c: char): nat {
    if |s| == 0 then 0 else CountOf(s[..|s| - 1], c) + (if s[|s| - 1] == c then 1 else 0)
  }

  /** The integer a string of decimal digits denotes. */
  function DigitsValue(ds: string): (r: nat)
    requires forall k :: 0 <= k < |ds| ==> IsDigit(ds[k])
  {
    if |ds| == 0 then 0
    else 10 * DigitsValue(ds[..|ds| - 1]) + DigitOf(ds[|ds| - 1])
  }

  /** The value of one decimal digit: its place in "0123456789". */
  function DigitOf(c: char): (r: nat)
    requires IsDigit(c)
    ensures r < 10 && "0123456789"[r] == c
  {
    (c as int) - ('0' as int)
  }

  function Pow10(n: nat): (r: nat)
    ensures r > 0
  {
    if n == 0 then 1 else 10 * Pow10(n - 1)
  }

  /** Python's `float(run)` for a run of digits and dots: it accepts at most
      one dot and at least one digit, and denotes the decimal number those
      digits spell. */
  function DecimalValue(run: string): (r: Option<real>)
    requires forall k :: 0 <= k < |run| ==> IsPriceChar(run[k])
    ensures r.Some? <==> CountOf(run, '.') <= 1 && exists k :: 0 <= k < |run| && IsDigit(run[k])
    ensures r.Some? ==> r.value >= 0.0
  {
    match IndexOf(run, '.')
    case None =>
      DotFree(run);
      if |run| == 0 then None else Some(DigitsValue(run) as real)
    case Some(d) =>
      var whole, frac := run[..d], run[d + 1..];
      assert run == whole + ['.'] + frac;
      CountSplit(whole, frac);
      DotFree(whole);
      if CountOf(frac, '.') > 0 then
        None
      else
        DotFree(frac);
        if |whole| == 0 && |frac| == 0 then None
        else
          assert |whole| > 0 ==> IsDigit(run[0]);
          assert |frac| > 0 ==> IsDigit(run[d + 1]);
          var fraction := (DigitsValue(frac) as real) / (Pow10(|frac|) as real);
          QuotientNonNegative(DigitsValue(frac) as real, Pow10(|frac|) as real);
          Some(DigitsValue(whole) as real + fraction)
  }

  lemma QuotientNonNegative(a: real, b: real)
    requires a >= 0.0 && b > 0.0
    ensures a / b >= 0.0
  {
  }

  lemma {:induction false} CountSplit(a: string, b: string)
    ensures CountOf(a + ['.'] + b, '.') == CountOf(a, '.') + 1 + CountOf(b, '.')
    decreases |b|
  {
    if |b| == 0 {
      assert (a + ['.'] + b)[..|a|] == a;
    } else {
      assert (a + ['.'] + b)[..|a + ['.'] + b| - 1] == a + ['.'] + b[..|b| - 1];
      CountSplit(a, b[..|b| - 1]);
    }
  }

  /** A run with no dot has a dot count of 0, and conversely. */
  lemma {:induction false} DotFree(s: string)
    ensures '.' !in s <==> CountOf(s, '.') == 0
    ensures forall k :: 0 <= k < |s| && IsPriceChar(s[k]) && '.' !in s ==> IsDigit(s[k])
  {
    if |s| > 0 {
      DotFree(s[..|s| - 1]);
      assert s == s[..|s| - 1] + [s[|s| - 1]];
    }
  }

  /** `parse_price(raw)`. */
  function ParsePrice(raw: JsonValue): (r: Result<Option<real>>)
    ensures raw.JNull? || raw.JArray? || raw.JObject? ==> r == Ok(None)
    ensures AsNumber(raw).Some? ==> r == Ok(AsNumber(raw))
    ensures raw.JStr? ==>
      (r == Ok(None) <==> forall k :: 0 <= k < |raw.s| ==> !IsPriceChar(raw.s[k]))
    ensures raw.JStr? && r.Ok? && r.value.Some? ==> r.value.value >= 0.0
    ensures r.Err? ==> raw.JStr? && r.error == ValueError(BadFloat)
  {
    match raw
    case JNull => Ok(None)
    case JBool(b) => Ok(Some(if b then 1.0 else 0.0))
    case JNum(n) => Ok(Some(n))
    case JStr(s) =>
      (match FirstRun(s)
       case None => Ok(None)
       case Some(run) =>
        var i :| IsLeftmostRun(s, run, i);
        assert forall k :: 0 <= k < |run| ==> run[k] == s[i + k];
        (match DecimalValue(run)
         case None => Err(ValueError(BadFloat))
         case Some(x) => Ok(Some(x))))
    case JArray(_) => Ok(None)
    case JObject(_) => Ok(None)
  }

  /** Appending a digit to a digit string. */
  lemma DigitsSnoc(ds: string, c: char)
    requires forall k :: 0 <= k < |ds| ==> IsDigit(ds[k])
    requires IsDigit(c)
    ensures forall k :: 0 <= k < |ds + [c]| ==> IsDigit((ds + [c])[k])
    ensures DigitsValue(ds + [c]) == 10 * DigitsValue(ds) + DigitOf(c)
  {
    assert (ds + [c])[..|ds|] == ds;
  }

  /** A price string is parsed through its first run of price characters. */
  lemma StringPrice(s: string, run: string)
    requires FirstRun(s) == Some(run)
    ensures forall k :: 0 <= k < |run| ==> IsPriceChar(run[k])
    ensures ParsePrice(JStr(s)) == match DecimalValue(run)
      case None => Err(ValueError(BadFloat))
      case Some(x) => Ok(Some(x))
  {
    var i :| IsLeftmostRun(s, run, i);
    assert forall k :: 0 <= k < |run| ==> run[k] == s[i + k];
  }

  /** A price string with a currency sign: the digits after it are the price. */
  lemma DollarPrice()
    ensures ParsePrice(JStr("$118")) == Ok(Some(118.0))
  {
    DollarRun();
    StringPrice("$118", "118");
    Value118();
  }

  lemma DollarRun()
    ensures FirstRun("$118") == Some("118")
  {
    assert RunPrefix("118") == "118";
  }

  lemma Value118()
    ensures DecimalValue("118") == Some(118.0)
  {
    assert IndexOf("118", '.') == None;
    DigitsSnoc("", '1');
    DigitsSnoc("1", '1');
    DigitsSnoc("11", '8');
    assert "" + ['1'] == "1" && "1" + ['1'] == "11" && "11" + ['8'] == "118";
  }

  /** A thousands separator ends the run: "$1,234" parses as 1. */
  lemma ThousandsSeparator()
    ensures ParsePrice(JStr("$1,234")) == Ok(Some(1.0))
  {
    SeparatorRun();
    StringPrice("$1,234", "1");
    Value1();
  }

  lemma SeparatorRun()
    ensures FirstRun("$1,234") == Some("1")
  {
    assert RunPrefix("1,234") == "1";
  }

  lemma Value1()
    ensures DecimalValue("1") == Some(1.0)
  {
    assert IndexOf("1", '.') == None;
    DigitsSnoc("", '1');
    assert "" + ['1'] == "1";
  }

  /** A run with two dots is rejected by `float`. */
  lemma TwoDots()
    ensures ParsePrice(JStr("1.2.3")) == Err(ValueError(BadFloat))
  {
    TwoDotsRun();
    StringPrice("1.2.3", "1.2.3");
    TwoDotsValue();
  }

  lemma TwoDotsRun()
    ensures FirstRun("1.2.3") == Some("1.2.3")
  {
    assert RunPrefix("1.2.3") == "1.2.3";
  }

  lemma TwoDotsValue()
    ensures DecimalValue("1.2.3") == None
  {
    assert CountOf("1.2.3", '.') == 2 by {
      assert "1.2.3"[..4] == "1.2." && "1.2."[..3] == "1.2" && "1.2"[..2] == "1." && "1."[..1] == "1" && "1"[..0] == "";
    }
  }
}
