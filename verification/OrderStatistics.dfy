/**
 Sorting and the R7 quantile, over the reals. A quantile is an interpolated order statistic;
 the laws here are what makes bootstrap intervals coherent.
 */
module OrderStatistics {
  import opened Outcomes

  // --- Resampling by index ------------------------------------------------------------------

  /** The values at the picked indices. */
  function Chosen<T>(values: seq<T>, picks: seq<nat>): (s: seq<T>)
    requires forall i :: 0 <= i < |picks| ==> picks[i] < |values|
    ensures |s| == |picks| && forall i :: 0 <= i < |picks| ==> s[i] == values[picks[i]]
  {
    seq(|picks|, i requires 0 <= i < |picks| => values[picks[i]])
  }

  // --- Sorting ------------------------------------------------------------------------------

  ghost predicate IsSorted(s: seq<real>) {
    forall i, j :: 0 <= i <= j < |s| ==> s[i] <= s[j]
  }

  function Insert(x: real, s: seq<real>): seq<real> {
    if s == [] || x <= s[0] then [x] + s else [s[0]] + Insert(x, s[1..])
  }

  function Sorted(s: seq<real>): seq<real> {
    if s == [] then [] else Insert(s[0], Sorted(s[1..]))
  }

  /** How many values are at most `y`. */
  ghost function AtMost(s: seq<real>, y: real): nat {
    if s == [] then 0 else (if s[0] <= y then 1 else 0) + AtMost(s[1..], y)
  }

  ghost predicate Within(s: seq<real>, lo: real, hi: real) {
    forall i :: 0 <= i < |s| ==> lo <= s[i] <= hi
  }

  lemma {:induction false} InsertWithin(x: real, s: seq<real>, lo: real, hi: real)
    requires Within(s, lo, hi) && lo <= x <= hi
    ensures Within(Insert(x, s), lo, hi)
    decreases |s|
  {
    if s != [] && x > s[0] { InsertWithin(x, s[1..], lo, hi); }
  }

  lemma {:induction false} SortedWithin(s: seq<real>, lo: real, hi: real)
    requires Within(s, lo, hi)
    ensures Within(Sorted(s), lo, hi)
    decreases |s|
  {
    if s != [] {
      SortedWithin(s[1..], lo, hi);
      InsertWithin(s[0], Sorted(s[1..]), lo, hi);
    }
  }

  lemma {:induction false} InsertSorts(x: real, s: seq<real>)
    requires IsSorted(s)
    ensures |Insert(x, s)| == |s| + 1 && IsSorted(Insert(x, s))
    decreases |s|
  {
    if s != [] && x > s[0] {
      InsertSorts(x, s[1..]);
      InsertWithin(x, s[1..], s[0], if x <= s[|s| - 1] then s[|s| - 1] else x);
    }
  }

  lemma {:induction false} InsertCounts(x: real, s: seq<real>, y: real)
    ensures AtMost(Insert(x, s), y) == AtMost(s, y) + if x <= y then 1 else 0
    decreases |s|
  {
    if s == [] || x <= s[0] {
      assert ([x] + s)[1..] == s;
    } else {
      InsertCounts(x, s[1..], y);
      assert ([s[0]] + Insert(x, s[1..]))[1..] == Insert(x, s[1..]);
    }
  }

  lemma {:induction false} InsertKeeps(x: real, s: seq<real>)
    ensures multiset(Insert(x, s)) == multiset([x] + s)
    decreases |s|
  {
    if s != [] && x > s[0] {
      InsertKeeps(x, s[1..]);
      assert s == [s[0]] + s[1..];
    }
  }

  /** Sorting gives a sorted permutation. */
  lemma {:induction false} SortedIs(s: seq<real>)
    ensures |Sorted(s)| == |s| && IsSorted(Sorted(s))
    ensures multiset(Sorted(s)) == multiset(s)
    decreases |s|
  {
    if s != [] {
      SortedIs(s[1..]);
      InsertSorts(s[0], Sorted(s[1..]));
      InsertKeeps(s[0], Sorted(s[1..]));
      assert s == [s[0]] + s[1..];
    }
  }

  lemma {:induction false} SortedCounts(s: seq<real>, y: real)
    ensures AtMost(Sorted(s), y) == AtMost(s, y)
    decreases |s|
  {
    if s != [] {
      SortedCounts(s[1..], y);
      InsertCounts(s[0], Sorted(s[1..]), y);
    }
  }

  /** In a sorted list, the k-th value is at most `y` when more than `k` values are. */
  lemma {:induction false} RankIs(s: seq<real>, k: nat, y: real)
    requires IsSorted(s) && k < |s|
    ensures s[k] <= y <==> AtMost(s, y) > k
  {
    if k == 0 {
      if s[0] > y { NoneAtMost(s, y); }
    } else {
      RankIs(s[1..], k - 1, y);
      if s[0] > y { NoneAtMost(s, y); }
    }
  }

  lemma {:induction false} NoneAtMost(s: seq<real>, y: real)
    requires forall i :: 0 <= i < |s| ==> s[i] > y
    ensures AtMost(s, y) == 0
  {
    if s != [] { NoneAtMost(s[1..], y); }
  }

  ghost predicate Below(a: seq<real>, b: seq<real>) {
    |a| == |b| && forall i :: 0 <= i < |a| ==> a[i] <= b[i]
  }

  lemma {:induction false} BelowCounts(a: seq<real>, b: seq<real>, y: real)
    requires Below(a, b)
    ensures AtMost(a, y) >= AtMost(b, y)
  {
    if a != [] { BelowCounts(a[1..], b[1..], y); }
  }

  /** Pointwise domination implies domination of every order statistic. */
  lemma OrderStatisticsMonotone(a: seq<real>, b: seq<real>)
    requires Below(a, b)
    ensures Below(Sorted(a), Sorted(b))
  {
    SortedIs(a);
    SortedIs(b);
    forall k | 0 <= k < |a| ensures Sorted(a)[k] <= Sorted(b)[k] {
      var y := Sorted(b)[k];
      RankIs(Sorted(b), k, y);
      SortedCounts(a, y);
      SortedCounts(b, y);
      BelowCounts(a, b, y);
      RankIs(Sorted(a), k, y);
    }
  }

  lemma {:induction false} AtMostBoth(a: seq<real>, b: seq<real>, y: real)
    ensures AtMost(a + b, y) == AtMost(a, y) + AtMost(b, y)
  {
    if a == [] {
      assert a + b == b;
    } else {
      assert (a + b)[1..] == a[1..] + b;
      AtMostBoth(a[1..], b, y);
    }
  }

  /** Two samples with as many values below every bound sort to the same list. */
  lemma SameCounts(a: seq<real>, b: seq<real>)
    requires |a| == |b| && forall y :: AtMost(a, y) == AtMost(b, y)
    ensures Sorted(a) == Sorted(b)
  {
    SortedIs(a);
    SortedIs(b);
    forall k | 0 <= k < |a| ensures Sorted(a)[k] == Sorted(b)[k] {
      SameRank(a, b, k);
      SameRank(b, a, k);
    }
  }

  lemma SameRank(a: seq<real>, b: seq<real>, k: nat)
    requires k < |a| == |b| && forall y :: AtMost(a, y) == AtMost(b, y)
    ensures |Sorted(a)| == |Sorted(b)| == |a| && Sorted(a)[k] <= Sorted(b)[k]
  {
    SortedIs(a);
    SortedIs(b);
    var y := Sorted(b)[k];
    RankIs(Sorted(b), k, y);
    SortedCounts(a, y);
    SortedCounts(b, y);
    RankIs(Sorted(a), k, y);
  }

  // --- The quantile -------------------------------------------------------------------------

  function Ceil(x: real): int { -((-x).Floor) }

  /** The value a fraction of the way from one to the other. */
  function Between(x: real, y: real, fraction: real): real { x + (y - x) * fraction }

  /** The value at a fractional position of a sorted list. */
  function At(s: seq<real>, position: real): real
    requires 0.0 <= position <= (|s| - 1) as real
  {
    var lower, upper := position.Floor, Ceil(position);
    if lower == upper then s[lower]
    else Between(s[lower], s[upper], position - lower as real)
  }

  /** The (n - 1) convention. */
  function Position(n: nat, probability: real): (r: real)
    requires n >= 1 && 0.0 <= probability <= 1.0
    ensures 0.0 <= r <= (n - 1) as real
  {
    var m := (n - 1) as real;
    assert m * 1.0 == m * probability + m * (1.0 - probability);
    m * probability
  }

  lemma PositionMonotone(n: nat, p: real, q: real)
    requires n >= 1 && 0.0 <= p <= q <= 1.0
    ensures Position(n, p) <= Position(n, q)
  {
    var m := (n - 1) as real;
    assert m * q == m * p + m * (q - p);
    Product(m, q - p);
  }

  lemma Product(x: real, y: real)
    requires x >= 0.0 && y >= 0.0
    ensures x * y >= 0.0
  {}

  /** `quantile`. */
  function Quantile(values: seq<real>, probability: real): Result<real> {
    if values == [] || !(0.0 <= probability <= 1.0) then Error
    else
      var ordered := Sorted(values);
      assert |ordered| == |values| by { SortedIs(values); }
      Ok(At(ordered, Position(|ordered|, probability)))
  }

  lemma At0(s: seq<real>, position: real) returns (k: nat)
    requires 0.0 <= position <= (|s| - 1) as real
    ensures k < |s| && k as real <= position < k as real + 1.0
    ensures k as real == position ==> At(s, position) == s[k]
    ensures k as real != position ==>
              k + 1 < |s| && At(s, position) == Between(s[k], s[k + 1], position - k as real)
  {
    k := position.Floor;
  }

  lemma Blend(x: real, y: real, f: real, g: real)
    requires x <= y && 0.0 <= f <= g <= 1.0
    ensures x <= Between(x, y, f) <= Between(x, y, g) <= y
  {
    Product(y - x, f);
    Product(y - x, g - f);
    Product(y - x, 1.0 - g);
    assert (y - x) * g == (y - x) * f + (y - x) * (g - f);
    assert (y - x) * 1.0 == (y - x) * g + (y - x) * (1.0 - g);
  }

  /** The value lies between its neighbours. */
  lemma AtBetween(s: seq<real>, position: real, k: nat)
    requires IsSorted(s) && 0.0 <= position <= (|s| - 1) as real
    requires k < |s| && k as real <= position < k as real + 1.0
    ensures s[k] <= At(s, position)
    ensures At(s, position) <= if k + 1 < |s| then s[k + 1] else s[k]
  {
    var j := At0(s, position);
    assert j == k;
    if k as real != position {
      Blend(s[k], s[k + 1], position - k as real, 1.0);
    }
  }

  /** Later positions have larger values. */
  lemma AtMonotone(s: seq<real>, p: real, q: real)
    requires IsSorted(s) && 0.0 <= p <= q <= (|s| - 1) as real
    ensures At(s, p) <= At(s, q)
  {
    var j := At0(s, p);
    var k := At0(s, q);
    if j == k {
      if j as real == p {
        AtBetween(s, q, k);
      } else {
        Blend(s[k], s[k + 1], p - k as real, q - k as real);
      }
    } else {
      AtBetween(s, p, j);
      AtBetween(s, q, k);
    }
  }

  lemma Weighted(a: real, b: real, c: real, d: real, f: real)
    requires a <= c && b <= d && 0.0 <= f <= 1.0
    ensures Between(a, b, f) <= Between(c, d, f)
  {
    assert (c + (d - c) * f) - (a + (b - a) * f) == (c - a) * (1.0 - f) + (d - b) * f;
    Product(c - a, 1.0 - f);
    Product(d - b, f);
  }

  /** Larger lists have larger values at the same position. */
  lemma AtDominates(s: seq<real>, t: seq<real>, position: real)
    requires Below(s, t) && 0.0 <= position <= (|s| - 1) as real
    ensures At(s, position) <= At(t, position)
  {
    var k := At0(s, position);
    var k' := At0(t, position);
    assert k == k';
    if k as real != position {
      Weighted(s[k], s[k + 1], t[k], t[k + 1], position - k as real);
    }
  }

  /** A quantile exists exactly for a non-empty sample and a probability, and lies inside the sample. */
  lemma QuantileWithin(values: seq<real>, p: real, lo: real, hi: real)
    requires Within(values, lo, hi)
    ensures Quantile(values, p).Ok? <==> values != [] && 0.0 <= p <= 1.0
    ensures Quantile(values, p).Ok? ==> lo <= Quantile(values, p).value <= hi
  {
    if values != [] && 0.0 <= p <= 1.0 {
      SortedIs(values);
      SortedWithin(values, lo, hi);
      var k := At0(Sorted(values), Position(|values|, p));
      AtBetween(Sorted(values), Position(|values|, p), k);
    }
  }

  lemma QuantileMonotone(values: seq<real>, p: real, q: real)
    requires values != [] && 0.0 <= p <= q <= 1.0
    ensures Quantile(values, p).value <= Quantile(values, q).value
  {
    SortedIs(values);
    PositionMonotone(|values|, p, q);
    AtMonotone(Sorted(values), Position(|values|, p), Position(|values|, q));
  }

  lemma QuantileDominates(a: seq<real>, b: seq<real>, p: real)
    requires a != [] && Below(a, b) && 0.0 <= p <= 1.0
    ensures Quantile(a, p).value <= Quantile(b, p).value
  {
    OrderStatisticsMonotone(a, b);
    SortedIs(a);
    SortedIs(b);
    AtDominates(Sorted(a), Sorted(b), Position(|a|, p));
  }

  /** Linear from the k-th value to the next. */
  function Linear(s: seq<real>, k: nat, f: real): real
    requires k < |s| && (f != 0.0 ==> k + 1 < |s|)
  {
    if f == 0.0 then s[k] else (1.0 - f) * s[k] + f * s[k + 1]
  }

  /** What the quantile is: at the fraction `f` between the k-th and the next order statistic, when the
      probability falls at the fraction `f` between `k` and `k + 1` of the n - 1 steps from the
      least value to the greatest. */
  lemma QuantileIs(values: seq<real>, p: real, k: nat, f: real)
    requires k < |values| && 0.0 <= f <= 1.0 && (f != 0.0 ==> k + 1 < |values|)
    requires p * (|values| - 1) as real == k as real + f && 0.0 <= p <= 1.0
    ensures |Sorted(values)| == |values|
    ensures Quantile(values, p) == Ok(Linear(Sorted(values), k, f))
  {
    var x := k as real + f;
    PositionIs(|values|, p, x);
    QuantileAt(values, p, x);
    AtIs(Sorted(values), x, k, f);
  }

  lemma PositionIs(n: nat, p: real, x: real)
    requires n >= 1 && 0.0 <= p <= 1.0 && p * (n - 1) as real == x
    ensures Position(n, p) == x
  {}

  lemma QuantileAt(values: seq<real>, p: real, x: real)
    requires values != [] && 0.0 <= p <= 1.0 && Position(|values|, p) == x
    ensures |Sorted(values)| == |values| && 0.0 <= x <= (|values| - 1) as real
    ensures Quantile(values, p) == Ok(At(Sorted(values), x))
  {
    SortedIs(values);
  }

  lemma AtIs(s: seq<real>, position: real, k: nat, f: real)
    requires 0.0 <= position <= (|s| - 1) as real && position == k as real + f
    requires k < |s| && 0.0 <= f <= 1.0 && (f != 0.0 ==> k + 1 < |s|)
    ensures At(s, position) == Linear(s, k, f)
  {
    var j := At0(s, position);
    assert f < 1.0 ==> j == k;
    assert f == 1.0 ==> j == k + 1;
  }

  /** The median of an odd number of values is the middle one, of an even number the mean of the two. */
  lemma MedianIs(values: seq<real>, m: nat)
    requires |values| == 2 * m + 1 || |values| == 2 * m + 2
    ensures |Sorted(values)| == |values|
    ensures Quantile(values, 0.5) ==
            Ok(if |values| % 2 == 1 then Sorted(values)[m] else (Sorted(values)[m] + Sorted(values)[m + 1]) / 2.0)
  {
    QuantileIs(values, 0.5, m, if |values| % 2 == 1 then 0.0 else 0.5);
  }

  /** The ends of the range of probabilities are the ends of the sample. */
  lemma ExtremesAre(values: seq<real>)
    requires values != []
    ensures |Sorted(values)| == |values|
    ensures Quantile(values, 0.0) == Ok(Sorted(values)[0]) && Quantile(values, 1.0) == Ok(Sorted(values)[|values| - 1])
  {
    QuantileIs(values, 0.0, 0, 0.0);
    QuantileIs(values, 1.0, |values| - 1, 0.0);
  }

  // --- Translation --------------------------------------------------------------------------

  function Shifted(s: seq<real>, c: real): (r: seq<real>)
    ensures |r| == |s| && forall i :: 0 <= i < |s| ==> r[i] == s[i] + c
  {
    seq(|s|, i requires 0 <= i < |s| => s[i] + c)
  }

  lemma {:induction false} InsertShifted(x: real, s: seq<real>, c: real)
    ensures Insert(x + c, Shifted(s, c)) == Shifted(Insert(x, s), c)
    decreases |s|
  {
    if s == [] || x <= s[0] {
      assert Shifted([x] + s, c) == [x + c] + Shifted(s, c);
    } else {
      InsertShifted(x, s[1..], c);
      assert Shifted(s, c)[1..] == Shifted(s[1..], c);
      assert Shifted([s[0]] + Insert(x, s[1..]), c) == [s[0] + c] + Shifted(Insert(x, s[1..]), c);
    }
  }

  lemma {:induction false} SortedShifted(s: seq<real>, c: real)
    ensures Sorted(Shifted(s, c)) == Shifted(Sorted(s), c)
    decreases |s|
  {
    if s != [] {
      SortedShifted(s[1..], c);
      assert Shifted(s, c)[1..] == Shifted(s[1..], c);
      InsertShifted(s[0], Sorted(s[1..]), c);
    }
  }

  /** Adding a constant to every value adds it to the quantile. */
  lemma QuantileShifted(values: seq<real>, p: real, c: real)
    requires values != [] && 0.0 <= p <= 1.0
    ensures Quantile(Shifted(values, c), p) == Ok(Quantile(values, p).value + c)
  {
    SortedShifted(values, c);
    SortedIs(values);
    AtShifted(Sorted(values), Position(|values|, p), c);
  }

  lemma AtShifted(s: seq<real>, position: real, c: real)
    requires 0.0 <= position <= (|s| - 1) as real
    ensures At(Shifted(s, c), position) == At(s, position) + c
  {
    var k := At0(s, position);
    var k' := At0(Shifted(s, c), position);
    assert k == k';
    if k as real != position { BetweenShifted(s[k], s[k + 1], position - k as real, c); }
  }

  lemma BetweenShifted(x: real, y: real, f: real, c: real)
    ensures Between(x + c, y + c, f) == Between(x, y, f) + c
  {
    assert (y + c) - (x + c) == y - x;
  }
}
