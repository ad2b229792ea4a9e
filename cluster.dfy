/** `cluster_attractions`: a greedy pass over the attractions that groups
    each unused attraction with coordinates (the seed) together with the later
    unused attractions within the distance threshold of it, until the group
    reaches `max_per_day`. A `used` array records which attractions have
    been taken or skipped. */
module Cluster {
  import opened Text
  import opened Json

  /** The distance tool as the loop calls it, on the four raw coordinates;
      it may raise. */
  type Distance = (JsonValue, JsonValue, JsonValue, JsonValue) -> Result<real>

  /** One day: its `day_index` and the positions of its attractions in the
      input list, seed first. */
  datatype Group = Group(dayIndex: int, members: seq<nat>)

  /** `a.get("lat")`, read only on a dict. */
  function Lat(a: JsonValue): JsonValue {
    if a.JObject? then Lookup(a.fields, "lat").GetOr(JNull) else JNull
  }

  /** `a.get("lng")`, read only on a dict. */
  function Lng(a: JsonValue): JsonValue {
    if a.JObject? then Lookup(a.fields, "lng").GetOr(JNull) else JNull
  }

  /** A dict whose `lat` and `lng` are both present and not `None`. */
  predicate HasCoords(a: JsonValue) {
    a.JObject? && Lat(a) != JNull && Lng(a) != JNull
  }

  /** The distance from attraction `s` to attraction `k`. */
  function DistanceOf(items: seq<JsonValue>, s: nat, k: nat, distance: Distance): Result<real>
    requires s < |items| && k < |items|
  {
    distance(Lat(items[s]), Lng(items[s]), Lat(items[k]), Lng(items[k]))
  }

  /** Attraction `k` is within `threshold` of seed `s` (`d <= threshold_km`). */
  predicate Near(items: seq<JsonValue>, s: nat, k: nat, distance: Distance, threshold: real) {
    s < |items| && k < |items| &&
    var d := DistanceOf(items, s, k, distance); d.Ok? && d.value <= threshold
  }

  /** Attraction `k` is measured and found farther than `threshold` from `s`. */
  predicate Far(items: seq<JsonValue>, s: nat, k: nat, distance: Distance, threshold: real) {
    s < |items| && k < |items| &&
    var d := DistanceOf(items, s, k, distance); d.Ok? && d.value > threshold
  }

  /** The distance tool raises for two attractions that both have coordinates. */
  predicate DistanceFails(items: seq<JsonValue>, s: nat, k: nat, distance: Distance) {
    s < |items| && k < |items| && HasCoords(items[s]) && HasCoords(items[k]) &&
    DistanceOf(items, s, k, distance).Err?
  }

  /** What can make the loop raise: an attraction that is not a dict, or the
      distance tool raising. */
  predicate SomeFailure(items: seq<JsonValue>, distance: Distance) {
    (exists k :: 0 <= k < |items| && !items[k].JObject?) ||
    (exists s, k :: 0 <= s < |items| && 0 <= k < |items| && DistanceFails(items, s, k, distance))
  }

  /** The size bound the loop enforces: the seed always goes in, so a
      `max_per_day` below 1 still gives groups of one. */
  function Capacity(maxPerDay: int): int {
    if maxPerDay < 1 then 1 else maxPerDay
  }

  predicate Increasing(g: seq<nat>) {
    forall p, q :: 0 <= p < q < |g| ==> g[p] < g[q]
  }

  /** A group as the inner loop builds it: a seed, then later attractions
      with coordinates within the threshold of the seed, at most `Capacity`. */
  predicate GroupShape(items: seq<JsonValue>, g: seq<nat>, distance: Distance, threshold: real, maxPerDay: int) {
    && 1 <= |g| <= Capacity(maxPerDay)
    && Increasing(g)
    && (forall m :: 0 <= m < |g| ==> g[m] < |items| && HasCoords(items[g[m]]))
    && (forall m :: 0 < m < |g| ==> Near(items, g[0], g[m], distance, threshold))
  }

  /** Attraction `k` belongs to one of the first `c` groups. */
  predicate InBefore(groups: seq<Group>, c: int, k: nat) {
    exists c' :: 0 <= c' < c && c' < |groups| && k in groups[c'].members
  }

  /** Attraction `k` belongs to some group. */
  predicate InSome(groups: seq<Group>, k: nat) {
    InBefore(groups, |groups|, k)
  }

  /** No attraction belongs to two groups. */
  predicate Disjoint(groups: seq<Group>) {
    forall c1, c2, k :: 0 <= c1 < c2 < |groups| && k in groups[c1].members ==> k !in groups[c2].members
  }

  /** Every attraction with coordinates before the seed of group `c` was
      already taken by an earlier group: seeds are picked in input order. */
  predicate SeededInOrder(items: seq<JsonValue>, groups: seq<Group>, c: nat) {
    c < |groups| && |groups[c].members| > 0 &&
    forall k :: 0 <= k < groups[c].members[0] && k < |items| && HasCoords(items[k]) ==> InBefore(groups, c, k)
  }

  /** The group `g` was already full when the loop reached position `j`. */
  predicate Saturated(g: seq<nat>, j: nat, maxPerDay: int) {
    |g| > 0 && |g| >= maxPerDay && g[|g| - 1] < j
  }

  /** Group `c` took every attraction after its seed that it could: each one
      left out was in an earlier group, came after the group filled up, had
      no coordinates, or was measured farther than the threshold. */
  predicate GreedyGroup(items: seq<JsonValue>, groups: seq<Group>, c: nat, distance: Distance, threshold: real, maxPerDay: int) {
    c < |groups| && |groups[c].members| > 0 &&
    var g := groups[c].members;
    forall j :: g[0] < j < |items| && j !in g && !InBefore(groups, c, j) ==>
      Saturated(g, j, maxPerDay) ||
      (items[j].JObject? && (HasCoords(items[j]) ==> Far(items, g[0], j, distance, threshold)))
  }

  /** Everything the finished loop guarantees about its groups. */
  predicate Clustering(items: seq<JsonValue>, groups: seq<Group>, distance: Distance, threshold: real, maxPerDay: int) {
    && (forall k :: 0 <= k < |items| ==> items[k].JObject? && (HasCoords(items[k]) <==> InSome(groups, k)))
    && Disjoint(groups)
    && forall c :: 0 <= c < |groups| ==>
         && groups[c].dayIndex == c + 1
         && GroupShape(items, groups[c].members, distance, threshold, maxPerDay)
         && SeededInOrder(items, groups, c)
         && GreedyGroup(items, groups, c, distance, threshold, maxPerDay)
  }

  /** The group around seed `i` as far as position `bound`, against the
      groups closed before it. */
  predicate GrowingGroup(items: seq<JsonValue>, groups: seq<Group>, i: nat, g: seq<nat>, bound: int,
                         distance: Distance, threshold: real, maxPerDay: int) {
    && GroupShape(items, g, distance, threshold, maxPerDay)
    && g[0] == i
    && (forall m :: 0 < m < |g| ==> i < g[m] < bound && !InSome(groups, g[m]))
    && forall j :: i < j < bound && j < |items| && j !in g && !InSome(groups, j) ==>
         Saturated(g, j, maxPerDay) ||
         (items[j].JObject? && (HasCoords(items[j]) ==> Far(items, i, j, distance, threshold)))
  }

  /** The inner loop: grow the group seeded at `i` over positions
      `i + 1 .. n - 1`, marking each attraction taken in `used`. */
  method Expand(items: seq<JsonValue>, used: array<bool>, i: nat, distance: Distance, threshold: real,
                maxPerDay: int, ghost groups: seq<Group>)
    returns (r: Result<seq<nat>>)
    requires used.Length == |items| && i < |items| && HasCoords(items[i]) && used[i]
    requires forall k :: i < k < |items| ==> (used[k] <==> InSome(groups, k))
    modifies used
    ensures r.Ok? ==> GrowingGroup(items, groups, i, r.value, |items|, distance, threshold, maxPerDay)
    ensures r.Ok? ==> forall k :: 0 <= k < |items| ==> used[k] == (old(used[k]) || k in r.value)
    ensures r.Err? ==> SomeFailure(items, distance)
  {
    var n := |items|;
    var ai := items[i];
    var latI, lngI := Lat(ai), Lng(ai);
    var cluster: seq<nat> := [i];
    var j := i + 1;
    while j < n
      invariant i < j <= n
      invariant GrowingGroup(items, groups, i, cluster, j, distance, threshold, maxPerDay)
      invariant forall k :: 0 <= k < n ==> used[k] == (old(used[k]) || k in cluster)
    {
      if used[j] || |cluster| >= maxPerDay {
        GrowPast(items, groups, i, cluster, j, distance, threshold, maxPerDay);
        j := j + 1;
        continue;
      }
      var aj := items[j];
      if !aj.JObject? {
        return Err(AttributeError);
      }
      var latJ, lngJ := Lat(aj), Lng(aj);
      if latJ == JNull || lngJ == JNull {
        GrowPast(items, groups, i, cluster, j, distance, threshold, maxPerDay);
        j := j + 1;
        continue;
      }
      var d := distance(latI, lngI, latJ, lngJ);
      if d.Err? {
        assert DistanceFails(items, i, j, distance);
        return Err(d.error);
      }
      if d.value <= threshold {
        GrowBy(items, groups, i, cluster, j, distance, threshold, maxPerDay);
        cluster := cluster + [j];
        used[j] := true;
      } else {
        GrowPast(items, groups, i, cluster, j, distance, threshold, maxPerDay);
      }
      j := j + 1;
    }
    return Ok(cluster);
  }

  /** Passing position `j` without taking it keeps the group's facts when the
      attraction there was taken before, came after the group filled up, has
      no coordinates or is too far. */
  lemma GrowPast(items: seq<JsonValue>, groups: seq<Group>, i: nat, g: seq<nat>, j: nat,
                 distance: Distance, threshold: real, maxPerDay: int)
    requires GrowingGroup(items, groups, i, g, j, distance, threshold, maxPerDay) && i < j < |items|
    requires InSome(groups, j) || |g| >= maxPerDay ||
             (items[j].JObject? && (HasCoords(items[j]) ==> Far(items, i, j, distance, threshold)))
    ensures GrowingGroup(items, groups, i, g, j + 1, distance, threshold, maxPerDay)
  {
    assert Saturated(g, j, maxPerDay) <== |g| >= maxPerDay;
  }

  /** Taking position `j` into a group that is not full keeps the group's
      facts when the attraction there is free and near the seed. */
  lemma GrowBy(items: seq<JsonValue>, groups: seq<Group>, i: nat, g: seq<nat>, j: nat,
               distance: Distance, threshold: real, maxPerDay: int)
    requires GrowingGroup(items, groups, i, g, j, distance, threshold, maxPerDay) && i < j < |items|
    requires !InSome(groups, j) && |g| < maxPerDay && HasCoords(items[j]) && Near(items, i, j, distance, threshold)
    ensures GrowingGroup(items, groups, i, g + [j], j + 1, distance, threshold, maxPerDay)
  {
    var g' := g + [j];
    ShapeBy(items, g, j, distance, threshold, maxPerDay);
    forall k | i < k < j + 1 && k < |items| && k !in g' && !InSome(groups, k)
      ensures Saturated(g', k, maxPerDay) ||
              (items[k].JObject? && (HasCoords(items[k]) ==> Far(items, i, k, distance, threshold)))
    {
      assert k !in g;
      assert !Saturated(g, k, maxPerDay);
    }
  }

  /** A group that is not full stays well-shaped when a later attraction near
      its seed joins. */
  lemma ShapeBy(items: seq<JsonValue>, g: seq<nat>, j: nat, distance: Distance, threshold: real, maxPerDay: int)
    requires GroupShape(items, g, distance, threshold, maxPerDay) && j < |items|
    requires |g| < maxPerDay && g[|g| - 1] < j && HasCoords(items[j]) && Near(items, g[0], j, distance, threshold)
    ensures GroupShape(items, g + [j], distance, threshold, maxPerDay)
  {
    IncreasingSnoc(g, j);
    CoordsSnoc(items, g, j);
    NearSnoc(items, g, j, distance, threshold);
  }

  lemma IncreasingSnoc(g: seq<nat>, j: nat)
    requires Increasing(g) && |g| > 0 && g[|g| - 1] < j
    ensures Increasing(g + [j])
  {
    var g' := g + [j];
    forall a, b | 0 <= a < b < |g'| ensures g'[a] < g'[b] {
      assert g'[a] == g[a];
      if b < |g| { assert g'[b] == g[b]; }
    }
  }

  lemma CoordsSnoc(items: seq<JsonValue>, g: seq<nat>, j: nat)
    requires forall m :: 0 <= m < |g| ==> g[m] < |items| && HasCoords(items[g[m]])
    requires j < |items| && HasCoords(items[j])
    ensures forall m :: 0 <= m < |g + [j]| ==> (g + [j])[m] < |items| && HasCoords(items[(g + [j])[m]])
  {
    var g' := g + [j];
    forall m | 0 <= m < |g'| ensures g'[m] < |items| && HasCoords(items[g'[m]]) {
      if m < |g| { assert g'[m] == g[m]; }
    }
  }

  lemma NearSnoc(items: seq<JsonValue>, g: seq<nat>, j: nat, distance: Distance, threshold: real)
    requires |g| > 0 && (forall m :: 0 <= m < |g| ==> g[m] < |items|) && j < |items|
    requires forall m :: 0 < m < |g| ==> Near(items, g[0], g[m], distance, threshold)
    requires Near(items, g[0], j, distance, threshold)
    ensures forall m :: 0 < m < |g + [j]| ==> Near(items, (g + [j])[0], (g + [j])[m], distance, threshold)
  {
    var g' := g + [j];
    assert g'[0] == g[0];
    forall m | 0 < m < |g'| ensures Near(items, g'[0], g'[m], distance, threshold) {
      if m < |g| { assert g'[m] == g[m]; }
    }
  }

  /** The outer loop: every unused attraction either is skipped (no
      coordinates) or seeds a new group with the next `day_index`. */
  method GreedyClusters(items: seq<JsonValue>, distance: Distance, threshold: real, maxPerDay: int)
    returns (r: Result<seq<Group>>)
    ensures r.Ok? ==> Clustering(items, r.value, distance, threshold, maxPerDay)
    ensures r.Err? ==> SomeFailure(items, distance)
  {
    var n := |items|;
    var used := new bool[n](_ => false);
    var groups: seq<Group> := [];
    var dayIdx := 1;
    var i := 0;
    while i < n
      invariant 0 <= i <= n && used.Length == n && dayIdx == |groups| + 1
      invariant Visited(items, groups, used[..], i)
      invariant ClosedGroups(items, groups, distance, threshold, maxPerDay)
    {
      if used[i] {
        PassTaken(items, groups, used[..], i, distance, threshold, maxPerDay);
        i := i + 1;
        continue;
      }
      var ai := items[i];
      if !ai.JObject? {
        return Err(AttributeError);
      }
      var latI, lngI := Lat(ai), Lng(ai);
      ghost var before := used[..];
      used[i] := true;
      if latI == JNull || lngI == JNull {
        PassBare(items, groups, before, i);
        i := i + 1;
        continue;
      }
      var grown := Expand(items, used, i, distance, threshold, maxPerDay, groups);
      if grown.Err? {
        return Err(grown.error);
      }
      var g := Group(dayIdx, grown.value);
      CloseGroup(items, groups, g, before, used[..], i, distance, threshold, maxPerDay);
      groups := groups + [g];
      dayIdx := dayIdx + 1;
      i := i + 1;
    }
    return Ok(groups);
  }

  /** What the outer loop knows about `used` once it has reached position `i`:
      everything before `i` is visited, a dict, and taken exactly when it has
      coordinates; from `i` on, `used` marks the attractions already taken. */
  predicate Visited(items: seq<JsonValue>, groups: seq<Group>, used: seq<bool>, i: nat) {
    && |used| == |items| && i <= |items|
    && (forall k :: 0 <= k < i ==> used[k])
    && (forall k :: i <= k < |used| ==> (used[k] <==> InSome(groups, k)))
    && (forall k :: 0 <= k < i ==> items[k].JObject? && (HasCoords(items[k]) <==> InSome(groups, k)))
  }

  /** Passing an attraction that an earlier group already took. */
  lemma PassTaken(items: seq<JsonValue>, groups: seq<Group>, used: seq<bool>, i: nat,
                  distance: Distance, threshold: real, maxPerDay: int)
    requires Visited(items, groups, used, i) && ClosedGroups(items, groups, distance, threshold, maxPerDay)
    requires i < |items| && used[i]
    ensures Visited(items, groups, used, i + 1)
  {
    InSomeHasCoords(items, groups, distance, threshold, maxPerDay, i);
  }

  /** Passing a free dict without coordinates, marking it used. */
  lemma PassBare(items: seq<JsonValue>, groups: seq<Group>, used: seq<bool>, i: nat)
    requires Visited(items, groups, used, i) && i < |items| && !used[i]
    requires items[i].JObject? && !HasCoords(items[i])
    ensures Visited(items, groups, used[i := true], i + 1)
  {
  }

  /** Closing the group grown around seed `i`, whose members the inner loop
      marked used, keeps both loop facts. */
  lemma CloseGroup(items: seq<JsonValue>, groups: seq<Group>, g: Group, before: seq<bool>, after: seq<bool>, i: nat,
                   distance: Distance, threshold: real, maxPerDay: int)
    requires Visited(items, groups, before, i) && ClosedGroups(items, groups, distance, threshold, maxPerDay)
    requires i < |items| && !before[i] && g.dayIndex == |groups| + 1
    requires GrowingGroup(items, groups, i, g.members, |items|, distance, threshold, maxPerDay)
    requires |after| == |items| && forall k :: 0 <= k < |items| ==> after[k] == (before[i := true][k] || k in g.members)
    ensures Visited(items, groups + [g], after, i + 1)
    ensures ClosedGroups(items, groups + [g], distance, threshold, maxPerDay)
  {
    AddGroup(items, groups, g, i, distance, threshold, maxPerDay);
    forall k ensures InSome(groups + [g], k) <==> InSome(groups, k) || k in g.members {
      InSomeAppend(groups, g, k);
    }
    assert g.members[0] == i;
  }

  /** The facts about the groups closed so far that the outer loop keeps. */
  predicate ClosedGroups(items: seq<JsonValue>, groups: seq<Group>, distance: Distance, threshold: real, maxPerDay: int) {
    && Disjoint(groups)
    && forall c :: 0 <= c < |groups| ==>
         && groups[c].dayIndex == c + 1
         && GroupShape(items, groups[c].members, distance, threshold, maxPerDay)
         && SeededInOrder(items, groups, c)
         && GreedyGroup(items, groups, c, distance, threshold, maxPerDay)
  }

  /** Only attractions with coordinates are ever taken into a group. */
  lemma InSomeHasCoords(items: seq<JsonValue>, groups: seq<Group>, distance: Distance, threshold: real,
                        maxPerDay: int, k: nat)
    requires ClosedGroups(items, groups, distance, threshold, maxPerDay) && InSome(groups, k)
    ensures k < |items| && HasCoords(items[k])
  {
    var c :| 0 <= c < |groups| && k in groups[c].members;
    assert GroupShape(items, groups[c].members, distance, threshold, maxPerDay);
    var m :| 0 <= m < |groups[c].members| && groups[c].members[m] == k;
  }

  /** Membership in the first `c` groups does not look past group `c`. */
  lemma InBeforeAppend(groups: seq<Group>, g: Group, c: nat, k: nat)
    requires c <= |groups|
    ensures InBefore(groups + [g], c, k) <==> InBefore(groups, c, k)
  {
    if InBefore(groups + [g], c, k) {
      var c' :| 0 <= c' < c && c' < |groups| + 1 && k in (groups + [g])[c'].members;
      assert groups[c'] == (groups + [g])[c'];
    }
    if InBefore(groups, c, k) {
      var c' :| 0 <= c' < c && c' < |groups| && k in groups[c'].members;
      assert groups[c'] == (groups + [g])[c'];
    }
  }

  /** A new group adds exactly its members to the taken attractions. */
  lemma InSomeAppend(groups: seq<Group>, g: Group, k: nat)
    ensures InSome(groups + [g], k) <==> InSome(groups, k) || k in g.members
  {
    InBeforeAppend(groups, g, |groups|, k);
    assert (groups + [g])[|groups|] == g;
  }

  /** Closing the group grown around seed `i` keeps the outer loop's facts. */
  lemma AddGroup(items: seq<JsonValue>, groups: seq<Group>, g: Group, i: nat,
                 distance: Distance, threshold: real, maxPerDay: int)
    requires ClosedGroups(items, groups, distance, threshold, maxPerDay)
    requires GrowingGroup(items, groups, i, g.members, |items|, distance, threshold, maxPerDay)
    requires g.dayIndex == |groups| + 1 && !InSome(groups, i)
    requires forall k :: 0 <= k < i && k < |items| && HasCoords(items[k]) ==> InSome(groups, k)
    ensures ClosedGroups(items, groups + [g], distance, threshold, maxPerDay)
  {
    var gs := groups + [g];
    forall c1, c2, k | 0 <= c1 < c2 < |gs| && k in gs[c1].members
      ensures k !in gs[c2].members
    {
      assert gs[c1] == groups[c1];
      if c2 < |groups| {
        assert gs[c2] == groups[c2];
      } else {
        assert InSome(groups, k);
        forall m | 0 <= m < |g.members| ensures g.members[m] != k { }
      }
    }
    forall c | 0 <= c < |gs|
      ensures SeededInOrder(items, gs, c) && GreedyGroup(items, gs, c, distance, threshold, maxPerDay)
    {
      forall k ensures InBefore(gs, c, k) <==> InBefore(groups, c, k) {
        InBeforeAppend(groups, g, c, k);
      }
      if c < |groups| {
        assert gs[c] == groups[c];
      }
    }
  }

  /** Each attraction with coordinates is in exactly one group, and in that
      group exactly once. */
  lemma ExactlyOneGroup(items: seq<JsonValue>, groups: seq<Group>, distance: Distance, threshold: real,
                        maxPerDay: int, k: nat)
    requires Clustering(items, groups, distance, threshold, maxPerDay) && k < |items| && HasCoords(items[k])
    ensures exists c, m :: 0 <= c < |groups| && 0 <= m < |groups[c].members| && groups[c].members[m] == k
    ensures forall c1, m1, c2, m2 ::
      0 <= c1 < |groups| && 0 <= m1 < |groups[c1].members| && groups[c1].members[m1] == k &&
      0 <= c2 < |groups| && 0 <= m2 < |groups[c2].members| && groups[c2].members[m2] == k ==>
      c1 == c2 && m1 == m2
  {
    assert InSome(groups, k);
    var c :| 0 <= c < |groups| && k in groups[c].members;
    var m :| 0 <= m < |groups[c].members| && groups[c].members[m] == k;
    forall c1, m1, c2, m2 |
      0 <= c1 < |groups| && 0 <= m1 < |groups[c1].members| && groups[c1].members[m1] == k &&
      0 <= c2 < |groups| && 0 <= m2 < |groups[c2].members| && groups[c2].members[m2] == k
      ensures c1 == c2 && m1 == m2
    {
      assert k in groups[c1].members && k in groups[c2].members;
      assert GroupShape(items, groups[c1].members, distance, threshold, maxPerDay);
    }
  }

  /** Every group index points into the attraction list. */
  predicate InRange(items: seq<JsonValue>, groups: seq<Group>) {
    forall c, m :: 0 <= c < |groups| && 0 <= m < |groups[c].members| ==> groups[c].members[m] < |items|
  }

  /** `{"day_index": day_idx, "attractions": cluster}`. */
  function GroupJson(items: seq<JsonValue>, g: Group): JsonValue
    requires forall m :: 0 <= m < |g.members| ==> g.members[m] < |items|
  {
    JObject([("day_index", JNum(g.dayIndex as real)),
             ("attractions", JArray(seq(|g.members|, m requires 0 <= m < |g.members| => items[g.members[m]])))])
  }

  /** `{"clusters": clusters}`. */
  function ClustersJson(items: seq<JsonValue>, groups: seq<Group>): JsonValue
    requires InRange(items, groups)
  {
    JObject([("clusters", JArray(seq(|groups|, c requires 0 <= c < |groups| => GroupJson(items, groups[c]))))])
  }

  /** The list the loop indexes, found from the tool's argument: a str is
      parsed first, `data.get("attractions", [])` needs a dict, `len` needs a
      container, and indexing a non-empty str or dict fails at position 0
      (a one-character str has no `.get`; a JSON dict has no key 0). */
  function AttractionList(loads: string -> Option<JsonValue>, input: JsonValue): (r: Result<seq<JsonValue>>)
    ensures input.JStr? && loads(input.s).None? ==> r == Err(ValueError(InvalidJson))
    ensures r.Ok? ==> var data := if input.JStr? then loads(input.s).value else input;
      data.JObject? && match Lookup(data.fields, "attractions")
        case None => r.value == []
        case Some(a) => (a.JArray? && r.value == a.items) || (!a.JArray? && Len(a) == Ok(0) && r.value == [])
    ensures r.Err? && r.error != ValueError(InvalidJson) ==>
      var data := if input.JStr? then loads(input.s).value else input;
      !data.JObject? || var a := Lookup(data.fields, "attractions").GetOr(JArray([]));
        r.error == (if a.JStr? && |a.s| > 0 then AttributeError
                    else if a.JObject? && |a.fields| > 0 then KeyError
                    else TypeError)
  {
    var data :- if input.JStr? then ParseWith(loads, Ok(input.s)) else Ok(input);
    var attractions :- Get(data, "attractions", JArray([]));
    var n :- Len(attractions);
    match attractions
    case JArray(items) => Ok(items)
    case JStr(_) => if n == 0 then Ok([]) else Err(AttributeError)
    case JObject(_) => if n == 0 then Ok([]) else Err(KeyError)
  }

  /** The default `threshold_km`. */
  const DefaultThreshold: real := 15.0

  /** The default `max_per_day`. */
  const DefaultMaxPerDay: int := 4

  /** `cluster_attractions(attractions_json, threshold_km, max_per_day)`. The
      ghost `groups` names the positions behind each output cluster. */
  method ClusterAttractions(loads: string -> Option<JsonValue>, input: JsonValue, distance: Distance,
                            threshold: real, maxPerDay: int)
    returns (r: Result<JsonValue>, ghost groups: seq<Group>)
    ensures AttractionList(loads, input).Err? ==> r == Err(AttractionList(loads, input).error)
    ensures AttractionList(loads, input).Ok? ==>
      var items := AttractionList(loads, input).value;
      (r.Ok? ==> Clustering(items, groups, distance, threshold, maxPerDay) && InRange(items, groups) &&
                 r.value == ClustersJson(items, groups)) &&
      (r.Err? ==> SomeFailure(items, distance))
  {
    groups := [];
    var list := AttractionList(loads, input);
    if list.Err? {
      return Err(list.error), groups;
    }
    var items := list.value;
    var found := GreedyClusters(items, distance, threshold, maxPerDay);
    if found.Err? {
      return Err(found.error), groups;
    }
    var found' := found.value;
    groups := found';
    assert InRange(items, found') by {
      forall c, m | 0 <= c < |found'| && 0 <= m < |found'[c].members| ensures found'[c].members[m] < |items| {
        assert GroupShape(items, found'[c].members, distance, threshold, maxPerDay);
      }
    }
    r := Ok(ClustersJson(items, found'));
  }
}
