/** String operations the agents apply to model output: `str.strip()`,
    literal `re.sub`/`str.replace`, and the greedy search for `\{[\s\S]*\}`. */
module Text {

  datatype Option<+T> = None | Some(value: T) {
    function GetOr(default: T): T {
      match this
      case Some(v) => v
      case None => default
    }
  }

  /** Python's `str.isspace()` for one character. */
  predicate IsSpace(c: char) {
    c == ' ' || ('\t' <= c <= '\r') || ('\U{1C}' <= c <= '\U{1F}') ||
    c == '\U{85}' || c == '\U{A0}' || c == '\U{1680}' ||
    ('\U{2000}' <= c <= '\U{200A}') || c == '\U{2028}' || c == '\U{2029}' ||
    c == '\U{202F}' || c == '\U{205F}' || c == '\U{3000}'
  }

  /** `s.lstrip()`. */
  function TrimStart(s: string): (r: string)
    ensures |r| <= |s| && r == s[|s| - |r|..]
    ensures r == [] || !IsSpace(r[0])
    ensures forall i :: 0 <= i < |s| - |r| ==> IsSpace(s[i])
  {
    if |s| > 0 && IsSpace(s[0]) then TrimStart(s[1..]) else s
  }

  /** `s.rstrip()`. */
  function TrimEnd(s: string): (r: string)
    ensures |r| <= |s| && r == s[..|r|]
    ensures r == [] || !IsSpace(r[|r| - 1])
    ensures forall i :: |r| <= i < |s| ==> IsSpace(s[i])
  {
    if |s| > 0 && IsSpace(s[|s| - 1]) then TrimEnd(s[..|s| - 1]) else s
  }

  /** `s.strip()`. */
  function Strip(s: string): (r: string)
    ensures r == [] || (!IsSpace(r[0]) && !IsSpace(r[|r| - 1]))
    ensures |r| <= |s|
    ensures exists k :: PaddedAt(r, s, k)
  {
    var t := TrimStart(s);
    PaddedWithin(s, t, TrimEnd(t));
    TrimEnd(t)
  }

  /** A prefix `r` of the suffix `t` of `s` sits in `s` between whitespace
      when all that `t` drops before it and `r` drops after it is. */
  lemma PaddedWithin(s: string, t: string, r: string)
    requires |t| <= |s| && t == s[|s| - |t|..] && |r| <= |t| && r == t[..|r|]
    requires forall i :: 0 <= i < |s| - |t| ==> IsSpace(s[i])
    requires forall i :: |r| <= i < |t| ==> IsSpace(t[i])
    ensures PaddedAt(r, s, |s| - |t|)
  {
    var k := |s| - |t|;
    assert s[k..k + |r|] == s[k..][..|r|];
    forall i | k + |r| <= i < |s| ensures IsSpace(s[i]) {
      assert s[i] == t[i - k];
    }
  }

  /** `s` is `r` at position `k` with only whitespace before and after it. */
  predicate PaddedAt(r: string, s: string, k: int) {
    && OccursAt(r, s, k)
    && (forall i :: 0 <= i < k ==> IsSpace(s[i]))
    && (forall i :: k + |r| <= i < |s| ==> IsSpace(s[i]))
  }

  /** Text made only of whitespace strips to the empty string. */
  lemma StripBlank(s: string)
    requires forall i :: 0 <= i < |s| ==> IsSpace(s[i])
    ensures Strip(s) == []
  {
  }

  predicate OccursAt(needle: string, hay: string, i: int) {
    0 <= i && i + |needle| <= |hay| && hay[i..i + |needle|] == needle
  }

  predicate IsSubstring(needle: string, hay: string) {
    exists i :: 0 <= i <= |hay| - |needle| && OccursAt(needle, hay, i)
  }

  /** `re.sub(pat, "", s)` and `s.replace(pat, "")` for a literal pattern:
      scan left to right and drop every non-overlapping occurrence. */
  function RemoveAll(s: string, pat: string): (r: string)
    requires |pat| > 0
    ensures |r| <= |s|
    decreases |s|
  {
    if |s| == 0 then s
    else if pat <= s then RemoveAll(s[|pat|..], pat)
    else [s[0]] + RemoveAll(s[1..], pat)
  }

  /** Text without `pat` in it is left as it is. */
  lemma {:induction false} RemoveAllAbsent(s: string, pat: string)
    requires |pat| > 0
    ensures !IsSubstring(pat, s) ==> RemoveAll(s, pat) == s
    decreases |s|
  {
    if |s| > 0 && !IsSubstring(pat, s) {
      assert !OccursAt(pat, s, 0);
      forall i | 0 <= i <= |s[1..]| - |pat| && OccursAt(pat, s[1..], i)
        ensures OccursAt(pat, s, i + 1)
      {
        assert s[1..][i..i + |pat|] == s[i + 1..i + 1 + |pat|];
      }
      RemoveAllAbsent(s[1..], pat);
      assert s == [s[0]] + s[1..];
    }
  }

  /** Up to the first occurrence of `pat` the text is kept; that occurrence is
      dropped and the removal carries on after it. With `RemoveAllAbsent`,
      this determines `RemoveAll` on every input. */
  lemma RemoveAllFirst(before: string, pat: string, after: string)
    requires |pat| > 0
    requires forall j :: 0 <= j < |before| ==> !OccursAt(pat, before + pat + after, j)
    ensures RemoveAll(before + pat + after, pat) == before + RemoveAll(after, pat)
  {
    assert before + pat + after == before + (pat + after);
    RemoveAllFree(before, pat, pat + after);
    assert pat <= pat + after && (pat + after)[|pat|..] == after;
  }

  /** A stretch in which no occurrence of `pat` starts is kept as it is. */
  lemma {:induction false} RemoveAllFree(before: string, pat: string, rest: string)
    requires |pat| > 0
    requires forall j :: 0 <= j < |before| ==> !OccursAt(pat, before + rest, j)
    ensures RemoveAll(before + rest, pat) == before + RemoveAll(rest, pat)
    decreases |before|
  {
    if |before| == 0 {
      assert before + rest == rest;
    } else {
      NoEarlierOccurrence(before, pat, rest);
      RemoveAllFree(before[1..], pat, rest);
      RemoveAllFreeStep(before, pat, rest);
    }
  }

  /** The inductive step of `RemoveAllFree`. */
  lemma RemoveAllFreeStep(before: string, pat: string, rest: string)
    requires |pat| > 0 && |before| > 0
    requires !OccursAt(pat, before + rest, 0)
    requires RemoveAll(before[1..] + rest, pat) == before[1..] + RemoveAll(rest, pat)
    ensures RemoveAll(before + rest, pat) == before + RemoveAll(rest, pat)
  {
    RemoveAllKeepsFirst(before, pat, rest);
    ConsAppend(RemoveAll(before + rest, pat), before, RemoveAll(before[1..] + rest, pat), RemoveAll(rest, pat));
  }

  /** A character that does not start `pat` is kept. */
  lemma RemoveAllKeepsFirst(before: string, pat: string, rest: string)
    requires |pat| > 0 && |before| > 0
    requires !OccursAt(pat, before + rest, 0)
    ensures RemoveAll(before + rest, pat) == [before[0]] + RemoveAll(before[1..] + rest, pat)
  {
    var s := before + rest;
    assert !(pat <= s);
    assert s[1..] == before[1..] + rest;
  }

  /** No occurrence of `pat` starting inside `before` means none starting
      inside `before[1..]`, in front of the same `rest`. */
  lemma NoEarlierOccurrence(before: string, pat: string, rest: string)
    requires |before| > 0
    requires forall j :: 0 <= j < |before| ==> !OccursAt(pat, before + rest, j)
    ensures forall j :: 0 <= j < |before| - 1 ==> !OccursAt(pat, before[1..] + rest, j)
  {
    var s := before + rest;
    assert s[1..] == before[1..] + rest;
    forall j | 0 <= j < |before| - 1 ensures !OccursAt(pat, s[1..], j) {
      assert !OccursAt(pat, s, j + 1);
      if j + |pat| <= |s| - 1 {
        assert s[1..][j..j + |pat|] == s[j + 1..j + 1 + |pat|];
      }
    }
  }

  /** `x` is `b[0]` before `y`, and `y` is the rest of `b` before `t`: so `x`
      is `b` before `t`. */
  lemma ConsAppend(x: string, b: string, y: string, t: string)
    requires |b| > 0 && x == [b[0]] + y && y == b[1..] + t
    ensures x == b + t
  {
    assert b == [b[0]] + b[1..];
  }

  /** The first position of `c` in `s`. */
  function IndexOf(s: string, c: char): (r: Option<nat>)
    ensures r.None? <==> c !in s
    ensures r.Some? ==> r.value < |s| && s[r.value] == c && c !in s[..r.value]
  {
    if |s| == 0 then None
    else if s[0] == c then Some(0)
    else
      match IndexOf(s[1..], c)
      case None => None
      case Some(i) =>
        assert s[..i + 1] == [s[0]] + s[1..][..i];
        Some(i + 1)
  }

  /** The last position of `c` in `s`. */
  function LastIndexOf(s: string, c: char): (r: Option<nat>)
    ensures r.None? <==> c !in s
    ensures r.Some? ==> r.value < |s| && s[r.value] == c && c !in s[r.value + 1..]
  {
    if |s| == 0 then None
    else if s[|s| - 1] == c then Some(|s| - 1)
    else
      match LastIndexOf(s[..|s| - 1], c)
      case None => None
      case Some(i) =>
        assert s[i + 1..] == s[..|s| - 1][i + 1..] + [s[|s| - 1]];
        Some(i)
  }

  /** A `{` somewhere followed by a `}`. */
  predicate HasBracedPair(t: string) {
    exists i, j :: 0 <= i < j < |t| && t[i] == '{' && t[j] == '}'
  }

  /** `span` runs from the first `{` of `t` to the last `}` of `t`, inclusive. */
  predicate IsFirstToLastSpan(span: string, t: string) {
    exists i, j ::
      0 <= i < j < |t| && span == t[i..j + 1] && t[i] == '{' && t[j] == '}' &&
      '{' !in t[..i] && '}' !in t[j + 1..]
  }

  /** `re.search(r"\{[\s\S]*\}", t).group()`: the greedy match starts at the
      first `{` and runs to the last `}` of the text, inclusive. */
  function ObjectSpan(t: string): (r: Option<string>)
    ensures r.None? <==> !HasBracedPair(t)
    ensures r.Some? ==> IsFirstToLastSpan(r.value, t)
  {
    var open, close := IndexOf(t, '{'), LastIndexOf(t, '}');
    if open.Some? && close.Some? && open.value < close.value then
      SpanBetween(t, open.value, close.value);
      Some(t[open.value..close.value + 1])
    else
      NoBracedPair(t, open, close);
      None
  }

  /** The text from the first `{` to a later last `}` is the span. */
  lemma SpanBetween(t: string, i: nat, j: nat)
    requires i < j < |t| && t[i] == '{' && t[j] == '}'
    requires '{' !in t[..i] && '}' !in t[j + 1..]
    ensures HasBracedPair(t) && IsFirstToLastSpan(t[i..j + 1], t)
  {
  }

  /** No `{` before a later `}` when one is missing or the last `}` comes
      before the first `{`. */
  lemma NoBracedPair(t: string, open: Option<nat>, close: Option<nat>)
    requires open == IndexOf(t, '{') && close == LastIndexOf(t, '}')
    requires !(open.Some? && close.Some? && open.value < close.value)
    ensures !HasBracedPair(t)
  {
    if open.Some? {
      NotBefore(t, '{', open.value);
    } else {
      assert t[..|t|] == t;
      NotBefore(t, '{', |t|);
    }
    if close.Some? {
      NotAfter(t, '}', close.value + 1);
    } else {
      assert t[0..] == t;
      NotAfter(t, '}', 0);
    }
  }

  lemma NotBefore(s: string, c: char, n: nat)
    requires n <= |s| && c !in s[..n]
    ensures forall k :: 0 <= k < n ==> s[k] != c
  {
    forall k | 0 <= k < n ensures s[k] != c { assert s[k] == s[..n][k]; }
  }

  lemma NotAfter(s: string, c: char, n: nat)
    requires n <= |s| && c !in s[n..]
    ensures forall k :: n <= k < |s| ==> s[k] != c
  {
    forall k | n <= k < |s| ensures s[k] != c { assert s[k] == s[n..][k - n]; }
  }

  /** The fence removal the three agents share: strip, delete every
      "```json", then every "```", and strip again. */
  function StripFences(text: string): string {
    Strip(RemoveAll(RemoveAll(Strip(text), "```json"), "```"))
  }

  /** Empty model output has no fences and no braces. */
  lemma StripFencesEmpty()
    ensures StripFences([]) == [] && !HasBracedPair(StripFences([]))
  {
    assert Strip([]) == [];
    assert RemoveAll([], "```json") == [];
    assert RemoveAll([], "```") == [];
  }
}
