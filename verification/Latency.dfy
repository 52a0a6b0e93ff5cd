/**
  The latency figures of the queue simulation: percentiles by linear interpolation, mean, extremes and
  the cumulative histogram, over exact rationals.
 */
module Latency {
  import opened Common
  import opened Sorting

  // ---------------------------------------------------------------- percentiles

  function Along(a: real, b: real, f: real): real { a + (b - a) * f }

  /** The value at a rank of an ascending list, on the line between the neighbours of the rank. */
  function At(ordered: seq<int>, rank: real): real
    requires ordered != [] && 0.0 <= rank <= (|ordered| - 1) as real
  {
    var low := rank.Floor;
    var high := if low + 1 < |ordered| then low + 1 else |ordered| - 1;
    Along(ordered[low] as real, ordered[high] as real, rank - low as real)
  }

  lemma Product(x: real, f: real, g: real)
    requires 0.0 <= x && f <= g
    ensures x * f <= x * g
  {
    assert x * g - x * f == x * (g - f);
  }

  lemma RankWithin(last: nat, p: real)
    requires 0.0 <= p <= 1.0
    ensures 0.0 <= last as real * p <= last as real
  {
    Product(last as real, 0.0, p);
    Product(last as real, p, 1.0);
  }

  lemma AlongBetween(a: real, b: real, f: real)
    requires a <= b && 0.0 <= f <= 1.0
    ensures a <= Along(a, b, f) <= b
  {
    Product(b - a, 0.0, f);
    Product(b - a, f, 1.0);
  }

  lemma AlongMonotone(a: real, b: real, f: real, g: real)
    requires a <= b && f <= g
    ensures Along(a, b, f) <= Along(a, b, g)
  {
    Product(b - a, f, g);
  }

  /** The value lies between the neighbours of its rank, hence between the extremes. */
  lemma AtBetween(ordered: seq<int>, rank: real)
    requires ordered != [] && Ascending(ordered) && 0.0 <= rank <= (|ordered| - 1) as real
    ensures ordered[rank.Floor] as real <= At(ordered, rank)
    ensures rank.Floor + 1 < |ordered| ==> At(ordered, rank) <= ordered[rank.Floor + 1] as real
    ensures ordered[0] as real <= At(ordered, rank) <= ordered[|ordered| - 1] as real
  {
    var low := rank.Floor;
    var high := if low + 1 < |ordered| then low + 1 else |ordered| - 1;
    AlongBetween(ordered[low] as real, ordered[high] as real, rank - low as real);
  }

  /** A higher rank never has a smaller value. */
  lemma AtMonotone(ordered: seq<int>, r: real, t: real)
    requires ordered != [] && Ascending(ordered) && 0.0 <= r <= t <= (|ordered| - 1) as real
    ensures At(ordered, r) <= At(ordered, t)
  {
    var i, j := r.Floor, t.Floor;
    if i == j {
      var high := if i + 1 < |ordered| then i + 1 else |ordered| - 1;
      var a, b := ordered[i] as real, ordered[high] as real;
      AlongMonotone(a, b, r - i as real, t - i as real);
      assert At(ordered, r) == Along(a, b, r - i as real) && At(ordered, t) == Along(a, b, t - i as real);
    } else {
      AtBetween(ordered, r);
      AtBetween(ordered, t);
      assert ordered[i + 1] <= ordered[j];
    }
  }

  /** An element stands exactly at its own rank. */
  lemma AtOwnRank(ordered: seq<int>, k: nat)
    requires k < |ordered|
    ensures At(ordered, k as real) == ordered[k] as real
  {
  }

  /** Values lie between the extremes, which stand at the least and the greatest rank, and never fall with the rank. */
  lemma AtLaws(ordered: seq<int>, r: real, t: real)
    requires ordered != [] && Ascending(ordered) && 0.0 <= r <= t <= (|ordered| - 1) as real
    ensures ordered[0] as real <= At(ordered, r) <= At(ordered, t) <= ordered[|ordered| - 1] as real
    ensures At(ordered, 0.0) == ordered[0] as real
    ensures At(ordered, (|ordered| - 1) as real) == ordered[|ordered| - 1] as real
  {
    AtBetween(ordered, r);
    AtBetween(ordered, t);
    AtMonotone(ordered, r, t);
    AtOwnRank(ordered, 0);
    AtOwnRank(ordered, |ordered| - 1);
  }

  /** The rank of a fraction, and that ranks follow fractions. */
  lemma RanksFollow(last: nat, p: real, q: real)
    requires 0.0 <= p <= q <= 1.0
    ensures 0.0 <= last as real * p <= last as real * q <= last as real
  {
    RankWithin(last, p);
    RankWithin(last, q);
    Product(last as real, p, q);
  }

  /** The value at a rank, by the neighbours. */
  method ValueAt(sorted: seq<int>, rank: real) returns (value: real)
    requires sorted != [] && 0.0 <= rank <= (|sorted| - 1) as real
    ensures value == At(sorted, rank)
  {
    var low := rank.Floor;
    var high := if low + 1 < |sorted| then low + 1 else |sorted| - 1;
    value := sorted[low] as real + (sorted[high] as real - sorted[low] as real) * (rank - low as real);
  }

  ghost predicate Orders(ordered: seq<int>, values: seq<int>) {
    Ascending(ordered) && multiset(ordered) == multiset(values) && |ordered| == |values|
  }

  /** The value stands at the rank among the values in ascending order. */
  ghost predicate StandsAt(values: seq<int>, rank: real, value: real) {
    && values != [] && 0.0 <= rank <= (|values| - 1) as real
    && forall ordered {:trigger Orders(ordered, values)} :: Orders(ordered, values) ==> value == At(ordered, rank)
  }

  /** The value stands at that fraction of the greatest rank. */
  ghost predicate AtFraction(values: seq<int>, p: real, value: real) {
    values != [] && StandsAt(values, (|values| - 1) as real * p, value)
  }

  /** The percentile stands at that fraction of the greatest rank; an empty list has none. */
  method Percentile(values: seq<int>, p: real) returns (r: Option<real>, ghost rank: real)
    requires 0.0 <= p <= 1.0
    ensures r.None? <==> values == []
    ensures values != [] ==> rank == (|values| - 1) as real * p && StandsAt(values, rank, r.value)
    ensures r.Some? ==> AtFraction(values, p, r.value)
  {
    rank := 0.0;
    if values == [] {
      return None, 0.0;
    }
    var sorted := Sort(values);
    SameLength(sorted, values);
    var last := |sorted| - 1;
    RankWithin(last, p);
    var at := last as real * p;
    rank := at;
    var value := ValueAt(sorted, at);
    r := Some(value);
    forall ordered {:trigger Orders(ordered, values)} | Orders(ordered, values)
      ensures ordered == sorted
    {
      AscendingUnique(ordered, sorted);
    }
  }

  // ---------------------------------------------------------------- the report

  const BUCKETS: seq<int> := [0, 1, 2, 5, 10, 20, 30, 45, 60, 90, 120]

  function CountAtMost(values: seq<int>, upper: int): nat {
    if values == [] then 0
    else CountAtMost(values[..|values| - 1], upper) + if values[|values| - 1] <= upper then 1 else 0
  }

  function Sum(values: seq<int>): int {
    if values == [] then 0 else Sum(values[..|values| - 1]) + values[|values| - 1]
  }

  datatype Summary = Summary(least: int, p50: real, p95: real, p99: real, greatest: int, mean: real)
  datatype Stats = Stats(count: nat, summary: Option<Summary>, histogram: seq<nat>)

  /** The figures of a list lie in order between its extremes. */
  ghost predicate InOrder(s: Summary) {
    && s.least as real <= s.p50 <= s.p95 <= s.p99 <= s.greatest as real
    && s.least as real <= s.mean <= s.greatest as real
  }

  /** Each percentile stands at its own fraction. */
  ghost predicate Ranked(values: seq<int>, s: Summary) {
    AtFraction(values, 0.50, s.p50) && AtFraction(values, 0.95, s.p95) && AtFraction(values, 0.99, s.p99)
  }

  lemma {:induction false} SumBetween(values: seq<int>, low: int, high: int)
    requires forall i :: 0 <= i < |values| ==> low <= values[i] <= high
    ensures low * |values| <= Sum(values) <= high * |values|
  {
    if values != [] {
      var n := |values| - 1;
      SumBetween(values[..n], low, high);
      assert low * (n + 1) == low * n + low && high * (n + 1) == high * n + high;
    }
  }

  lemma {:induction false} CountMonotone(values: seq<int>, a: int, b: int)
    requires a <= b
    ensures CountAtMost(values, a) <= CountAtMost(values, b) <= |values|
  {
    if values != [] {
      CountMonotone(values[..|values| - 1], a, b);
    }
  }

  method Histogram(values: seq<int>) returns (h: seq<nat>)
    ensures |h| == |BUCKETS| + 1 && h[|BUCKETS|] == |values|
    ensures forall i :: 0 <= i < |BUCKETS| ==> h[i] == CountAtMost(values, BUCKETS[i])
  {
    h := [];
    for i := 0 to |BUCKETS|
      invariant |h| == i && forall j :: 0 <= j < i ==> h[j] == CountAtMost(values, BUCKETS[j])
    {
      var count := Count(values, BUCKETS[i]);
      h := h + [count];
    }
    h := h + [|values|];
  }

  method Count(values: seq<int>, upper: int) returns (count: nat)
    ensures count == CountAtMost(values, upper)
  {
    count := 0;
    for i := 0 to |values|
      invariant count == CountAtMost(values[..i], upper)
    {
      assert values[..i + 1][..i] == values[..i];
      if values[i] <= upper {
        count := count + 1;
      }
    }
    assert values[..|values|] == values;
  }

  method Total(values: seq<int>) returns (total: int)
    ensures total == Sum(values)
  {
    total := 0;
    for i := 0 to |values|
      invariant total == Sum(values[..i])
    {
      assert values[..i + 1][..i] == values[..i];
      total := total + values[i];
    }
    assert values[..|values|] == values;
  }

  /** The cumulative counts never fall and end at the number of values. */
  ghost predicate Cumulative(h: seq<nat>, total: nat) {
    h != [] && h[|h| - 1] == total && forall i, j :: 0 <= i < j < |h| ==> h[i] <= h[j]
  }

  /** The mean times the number of values is their sum. */
  ghost predicate Averages(values: seq<int>, mean: real) {
    mean * |values| as real == Sum(values) as real
  }

  lemma Cancel(d: real, c: real)
    requires c > 0.0 && d * c == 0.0
    ensures d == 0.0
  {
  }

  lemma OneMore(a: real, b: real, c: real, sum: real)
    requires c > 0.0 && a * c == sum && b * c == sum + c
    ensures b == a + 1.0
  {
    assert (b - a - 1.0) * c == b * c - a * c - c;
    Cancel(b - a - 1.0, c);
  }

  /** When a list sums to one more for each value, its mean is greater by one. */
  lemma OneMoreEach(v: seq<int>, w: seq<int>, a: real, b: real)
    requires v != [] && |w| == |v| && Sum(w) == Sum(v) + |v| && Averages(v, a) && Averages(w, b)
    ensures b == a + 1.0
  {
    assert Sum(w) as real == Sum(v) as real + |v| as real;
    OneMore(a, b, |v| as real, Sum(v) as real);
  }

  /**
    What is reported: figures exactly for a list that is not empty, each between the extremes and in
    ascending order of the percentiles, each percentile at its fraction, and a cumulative histogram.
   */
  ghost predicate Reports(values: seq<int>, s: Stats) {
    && s.count == |values| && (s.summary.Some? <==> values != []) && Cumulative(s.histogram, |values|)
    && (s.summary.Some? ==>
          && InOrder(s.summary.value) && Averages(values, s.summary.value.mean) && Ranked(values, s.summary.value)
          && s.summary.value.least in values && s.summary.value.greatest in values
          && forall v :: v in values ==> s.summary.value.least <= v <= s.summary.value.greatest)
  }

  method Report(values: seq<int>) returns (s: Stats)
    ensures Reports(values, s) && |s.histogram| == |BUCKETS| + 1
    ensures forall i :: 0 <= i < |BUCKETS| ==> s.histogram[i] == CountAtMost(values, BUCKETS[i])
  {
    var h := Histogram(values);
    forall i, j | 0 <= i < j < |h|
      ensures h[i] <= h[j]
    {
      CountMonotone(values, BUCKETS[i], if j < |BUCKETS| then BUCKETS[j] else BUCKETS[i]);
    }
    if values == [] {
      return Stats(0, None, h);
    }
    var summary := Summarise(values);
    s := Stats(|values|, Some(summary), h);
  }

  /** Three values in order between the extremes. */
  ghost predicate Spread(values: seq<int>, a: real, b: real, c: real) {
    forall ordered {:trigger Orders(ordered, values)} :: Orders(ordered, values) && ordered != [] ==>
      ordered[0] as real <= a <= b <= c <= ordered[|ordered| - 1] as real
  }

  lemma StandInOrder(values: seq<int>, r: real, s: real, t: real, a: real, b: real, c: real)
    requires r <= s <= t && StandsAt(values, r, a) && StandsAt(values, s, b) && StandsAt(values, t, c)
    ensures Spread(values, a, b, c)
  {
    forall ordered {:trigger Orders(ordered, values)} | Orders(ordered, values)
      ensures ordered[0] as real <= a <= b <= c <= ordered[|ordered| - 1] as real
    {
      AtLaws(ordered, r, s);
      AtLaws(ordered, s, t);
    }
  }

  /** The three percentiles reported, in order between the extremes. */
  method Percentiles(values: seq<int>) returns (p50: real, p95: real, p99: real)
    requires values != []
    ensures Spread(values, p50, p95, p99)
    ensures AtFraction(values, 0.50, p50) && AtFraction(values, 0.95, p95) && AtFraction(values, 0.99, p99)
  {
    RanksFollow(|values| - 1, 0.50, 0.95);
    RanksFollow(|values| - 1, 0.95, 0.99);
    var a, ra := Percentile(values, 0.50);
    var b, rb := Percentile(values, 0.95);
    var c, rc := Percentile(values, 0.99);
    p50, p95, p99 := a.value, b.value, c.value;
    StandInOrder(values, ra, rb, rc, p50, p95, p99);
  }

  method Summarise(values: seq<int>) returns (s: Summary)
    requires values != []
    ensures InOrder(s) && s.least in values && s.greatest in values
    ensures forall v :: v in values ==> s.least <= v <= s.greatest
    ensures Averages(values, s.mean) && Ranked(values, s)
  {
    var sorted := Sort(values);
    SameLength(sorted, values);
    Extremes(values, sorted);
    var p50, p95, p99 := Percentiles(values);
    assert Orders(sorted, values);
    var mean := Mean(values, sorted[0], sorted[|sorted| - 1]);
    s := Summary(sorted[0], p50, p95, p99, sorted[|sorted| - 1], mean);
  }

  method Mean(values: seq<int>, ghost low: int, ghost high: int) returns (mean: real)
    requires values != [] && forall v :: v in values ==> low <= v <= high
    ensures low as real <= mean <= high as real && Averages(values, mean)
  {
    var total := Total(values);
    assert forall i :: 0 <= i < |values| ==> values[i] in values;
    SumBetween(values, low, high);
    MeanBetween(total, |values|, low, high);
    mean := total as real / |values| as real;
  }

  lemma MeanBetween(total: int, count: nat, low: int, high: int)
    requires count > 0 && low * count <= total <= high * count
    ensures low as real <= total as real / count as real <= high as real
    ensures (total as real / count as real) * count as real == total as real
  {
    var mean := total as real / count as real;
    assert mean * count as real == total as real;
    assert (low * count) as real == low as real * count as real;
    assert (high * count) as real == high as real * count as real;
  }

  /** The first and last in order are the extremes. */
  lemma Extremes(values: seq<int>, sorted: seq<int>)
    requires sorted != [] && Ascending(sorted) && multiset(sorted) == multiset(values)
    ensures sorted[0] in values && sorted[|sorted| - 1] in values
    ensures forall v :: v in values ==> sorted[0] <= v <= sorted[|sorted| - 1]
  {
    assert sorted[0] in multiset(values) && sorted[|sorted| - 1] in multiset(values);
    forall v | v in values
      ensures sorted[0] <= v <= sorted[|sorted| - 1]
    {
      assert v in multiset(sorted);
    }
  }
}
