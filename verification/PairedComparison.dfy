/**
 The paired comparison of two implementations, stratified by which of them ran first, and
 bootstrapped stratum by stratum. Differences are candidate minus baseline.
 */
module PairedComparison {
  import opened Outcomes
  import opened SplitMix
  import opened Sampler
  import opened OrderStatistics
  import opened Bootstrap

  datatype Record = Record(baselineFirst: bool, difference: real)

  datatype Comparison = Comparison(median: Statistic, adjusted: Statistic)

  /** One bootstrap round: the picks in either stratum, and the generator states around them. */
  datatype Round = Round(first: seq<nat>, second: seq<nat>, before: Word, between: Word, after: Word)

  function Differences(records: seq<Record>): (d: seq<real>)
    ensures |d| == |records| && forall i :: 0 <= i < |d| ==> d[i] == records[i].difference
  {
    seq(|records|, i requires 0 <= i < |records| => records[i].difference)
  }

  /** The differences of the pairs in which the given side ran first. */
  function Stratum(records: seq<Record>, baselineFirst: bool): seq<real> {
    if records == [] then []
    else
      var n := |records| - 1;
      Stratum(records[..n], baselineFirst) +
      if records[n].baselineFirst == baselineFirst then [records[n].difference] else []
  }

  ghost predicate AreRounds(rounds: seq<Round>, m: nat, n: nat) {
    forall k :: 0 <= k < |rounds| ==> IsDraw(rounds[k].first, m) && IsDraw(rounds[k].second, n)
  }

  function Pooled(m: Measure, a: seq<real>, b: seq<real>): real { m(a + b) }

  /** `_order_adjusted_difference`: the mean over the two strata. */
  function Adjusted(m: Measure, a: seq<real>, b: seq<real>): real { (m(a) + m(b)) / 2.0 }

  ghost function PooledEstimates(m: Measure, a: seq<real>, b: seq<real>, rounds: seq<Round>): (d: seq<real>)
    requires AreRounds(rounds, |a|, |b|)
    ensures |d| == |rounds|
    ensures forall k :: 0 <= k < |d| ==> d[k] == Pooled(m, Chosen(a, rounds[k].first), Chosen(b, rounds[k].second))
  {
    seq(|rounds|, k requires 0 <= k < |rounds| => Pooled(m, Chosen(a, rounds[k].first), Chosen(b, rounds[k].second)))
  }

  ghost function AdjustedEstimates(m: Measure, a: seq<real>, b: seq<real>, rounds: seq<Round>): (d: seq<real>)
    requires AreRounds(rounds, |a|, |b|)
    ensures |d| == |rounds|
    ensures forall k :: 0 <= k < |d| ==> d[k] == Adjusted(m, Chosen(a, rounds[k].first), Chosen(b, rounds[k].second))
  {
    seq(|rounds|, k requires 0 <= k < |rounds| => Adjusted(m, Chosen(a, rounds[k].first), Chosen(b, rounds[k].second)))
  }

  lemma RoundsGrow(m: Measure, a: seq<real>, b: seq<real>, rounds: seq<Round>, r: Round)
    requires AreRounds(rounds, |a|, |b|) && IsDraw(r.first, |a|) && IsDraw(r.second, |b|)
    ensures AreRounds(rounds + [r], |a|, |b|)
    ensures PooledEstimates(m, a, b, rounds + [r]) ==
            PooledEstimates(m, a, b, rounds) + [Pooled(m, Chosen(a, r.first), Chosen(b, r.second))]
    ensures AdjustedEstimates(m, a, b, rounds + [r]) ==
            AdjustedEstimates(m, a, b, rounds) + [Adjusted(m, Chosen(a, r.first), Chosen(b, r.second))]
  {}

  ghost function PooledStatistic(ci: Interval, m: Measure, records: seq<Record>, rounds: seq<Round>): Result<Statistic>
    requires AreRounds(rounds, |Stratum(records, true)|, |Stratum(records, false)|)
  {
    StatisticWith(ci, m(Differences(records)), PooledEstimates(m, Stratum(records, true), Stratum(records, false), rounds))
  }

  ghost function AdjustedStatistic(ci: Interval, m: Measure, a: seq<real>, b: seq<real>, rounds: seq<Round>): Result<Statistic>
    requires AreRounds(rounds, |a|, |b|)
  {
    StatisticWith(ci, Adjusted(m, a, b), AdjustedEstimates(m, a, b, rounds))
  }

  /** The rounds are the ones the generator makes: one stratum after the other. */
  ghost predicate GeneratedRounds(state: Word, m: nat, n: nat, rounds: seq<Round>, end: Word)
    requires m <= MODULUS && n <= MODULUS
    decreases |rounds|
  {
    if rounds == [] then end == state
    else
      var k := |rounds| - 1;
      var r := rounds[k];
      && GeneratedRounds(state, m, n, rounds[..k], r.before) && end == r.after
      && (r.first, r.between) == Resampled(r.before, m) && (r.second, r.after) == Resampled(r.between, n)
  }

  /** `_paired_comparison`, differences, for any interval and measure: it succeeds exactly when both
      strata have pairs and at least one resample is asked for. */
  method CompareWith(ci: Interval, m: Measure, records: seq<Record>, resamples: int, seed: int)
      returns (r: Result<Comparison>, ghost rounds: seq<Round>, ghost end: Word)
    requires Sound(ci) && |Stratum(records, true)| <= MODULUS && |Stratum(records, false)| <= MODULUS
    ensures r.Ok? <==> Stratum(records, true) != [] && Stratum(records, false) != [] && resamples >= 1
    ensures r.Ok? ==>
              && |rounds| == resamples && AreRounds(rounds, |Stratum(records, true)|, |Stratum(records, false)|)
              && GeneratedRounds(seed % MODULUS, |Stratum(records, true)|, |Stratum(records, false)|, rounds, end)
              && Ok(r.value.median) == PooledStatistic(ci, m, records, rounds)
              && Ok(r.value.adjusted) == AdjustedStatistic(ci, m, Stratum(records, true), Stratum(records, false), rounds)
  {
    var a, b := Stratum(records, true), Stratum(records, false);
    var pooled, adjusted;
    pooled, adjusted, rounds, end := Resamples(m, a, b, if resamples > 0 then resamples else 0, seed);
    if a == [] || b == [] { return Error, rounds, end; }
    var s, t := StatisticWith(ci, m(Differences(records)), pooled), StatisticWith(ci, Adjusted(m, a, b), adjusted);
    if s.Error? || t.Error? { return Error, rounds, end; }
    r := Ok(Comparison(s.value, t.value));
  }

  /** The bootstrap loop, round by round. An empty stratum is resampled to itself. */
  method Resamples(m: Measure, a: seq<real>, b: seq<real>, n: nat, seed: int)
      returns (pooled: seq<real>, adjusted: seq<real>, ghost rounds: seq<Round>, ghost end: Word)
    requires |a| <= MODULUS && |b| <= MODULUS
    ensures |rounds| == n && AreRounds(rounds, |a|, |b|)
    ensures GeneratedRounds(seed % MODULUS, |a|, |b|, rounds, end)
    ensures pooled == PooledEstimates(m, a, b, rounds) && adjusted == AdjustedEstimates(m, a, b, rounds)
  {
    rounds, pooled, adjusted := [], [], [];
    var rng := new SplitMix64(seed);
    for k := 0 to n
      invariant |rounds| == k && AreRounds(rounds, |a|, |b|)
      invariant GeneratedRounds(seed % MODULUS, |a|, |b|, rounds, rng.state)
      invariant pooled == PooledEstimates(m, a, b, rounds)
      invariant adjusted == AdjustedEstimates(m, a, b, rounds)
    {
      var sampleA, sampleB;
      ghost var round;
      sampleA, sampleB, round := OneRound(a, b, rng, seed % MODULUS, rounds);
      RoundsGrow(m, a, b, rounds, round);
      rounds := rounds + [round];
      pooled, adjusted := pooled + [Pooled(m, sampleA, sampleB)], adjusted + [Adjusted(m, sampleA, sampleB)];
    }
    end := rng.state;
  }

  method OneRound(a: seq<real>, b: seq<real>, rng: SplitMix64, ghost start: Word, ghost rounds: seq<Round>)
      returns (sampleA: seq<real>, sampleB: seq<real>, ghost round: Round)
    requires |a| <= MODULUS && |b| <= MODULUS && GeneratedRounds(start, |a|, |b|, rounds, rng.state)
    modifies rng
    ensures IsDraw(round.first, |a|) && IsDraw(round.second, |b|)
    ensures sampleA == Chosen(a, round.first) && sampleB == Chosen(b, round.second)
    ensures GeneratedRounds(start, |a|, |b|, rounds + [round], rng.state)
  {
    ghost var p, q;
    ghost var before := rng.state;
    sampleA, p := Resample(a, rng);
    ghost var between := rng.state;
    sampleB, q := Resample(b, rng);
    round := Round(p, q, before, between, rng.state);
    assert (rounds + [round])[..|rounds|] == rounds;
  }

  lemma {:induction false} StratumWithin(records: seq<Record>, side: bool, lo: real, hi: real)
    requires Within(Differences(records), lo, hi)
    ensures Within(Stratum(records, side), lo, hi)
  {
    if records != [] {
      var n := |records| - 1;
      assert forall i :: 0 <= i < n ==> Differences(records[..n])[i] == Differences(records)[i];
      StratumWithin(records[..n], side, lo, hi);
      assert Differences(records)[n] == records[n].difference;
    }
  }

  lemma ChosenBoth(m: Measure, a: seq<real>, b: seq<real>, r: Round, lo: real, hi: real)
    requires Inside(m) && a != [] && b != []
    requires IsDraw(r.first, |a|) && IsDraw(r.second, |b|) && Within(a, lo, hi) && Within(b, lo, hi)
    ensures lo <= Pooled(m, Chosen(a, r.first), Chosen(b, r.second)) <= hi
    ensures lo <= Adjusted(m, Chosen(a, r.first), Chosen(b, r.second)) <= hi
  {
    var x, y := Chosen(a, r.first), Chosen(b, r.second);
    ChosenWithin(a, r.first, lo, hi);
    ChosenWithin(b, r.second, lo, hi);
    assert Within(x + y, lo, hi);
  }

  /** Both comparisons and their intervals stay inside the observed differences. */
  lemma ComparisonWithin(ci: Interval, m: Measure, records: seq<Record>, rounds: seq<Round>, lo: real, hi: real)
    requires Sound(ci) && Inside(m) && Stratum(records, true) != [] && Stratum(records, false) != [] && rounds != []
    requires AreRounds(rounds, |Stratum(records, true)|, |Stratum(records, false)|)
    requires Within(Differences(records), lo, hi)
    ensures var s := PooledStatistic(ci, m, records, rounds);
            s.Ok? && lo <= s.value.estimate <= hi && lo <= s.value.low <= s.value.high <= hi
    ensures var s := AdjustedStatistic(ci, m, Stratum(records, true), Stratum(records, false), rounds);
            s.Ok? && lo <= s.value.estimate <= hi && lo <= s.value.low <= s.value.high <= hi
  {
    var a, b := Stratum(records, true), Stratum(records, false);
    StratumWithin(records, true, lo, hi);
    StratumWithin(records, false, lo, hi);
    var d, e := PooledEstimates(m, a, b, rounds), AdjustedEstimates(m, a, b, rounds);
    forall k | 0 <= k < |rounds| ensures lo <= d[k] <= hi && lo <= e[k] <= hi {
      ChosenBoth(m, a, b, rounds[k], lo, hi);
    }
    assert records != [];
    assert Within(d, lo, hi) && Within(e, lo, hi);
  }

  lemma ChosenShifted(s: seq<real>, picks: seq<nat>, c: real)
    requires IsDraw(picks, |s|)
    ensures Chosen(Shifted(s, c), picks) == Shifted(Chosen(s, picks), c)
  {}

  /** The adjusted statistic and both ends of its interval move by exactly `c` when the differences
      of either stratum move by `c` and, in opposite directions, by `e`. */
  ghost predicate MovesBy(ci: Interval, m: Measure, a: seq<real>, b: seq<real>, rounds: seq<Round>, c: real, e: real)
    requires AreRounds(rounds, |a|, |b|)
  {
    var s := AdjustedStatistic(ci, m, a, b, rounds);
    s.Ok? && AdjustedStatistic(ci, m, Shifted(a, c + e), Shifted(b, c - e), rounds) ==
             Ok(Statistic(s.value.estimate + c, s.value.low + c, s.value.high + c))
  }

  /** An effect of the running order, which adds `e` to the difference when the baseline runs first
      and takes it away when the candidate does, cancels from the adjusted difference and from
      its whole bootstrap interval, whatever the generator draws; a real difference `c`
      between the implementations shows in full. */
  lemma OrderEffectCancels(ci: Interval, m: Measure, a: seq<real>, b: seq<real>, rounds: seq<Round>, c: real, e: real)
    requires Sound(ci) && Equivariant(m) && a != [] && b != [] && rounds != [] && AreRounds(rounds, |a|, |b|)
    ensures MovesBy(ci, m, a, b, rounds, c, e)
  {
    EstimatesShifted(m, a, b, rounds, c, e);
    AdjustedShifted(m, a, b, c, e);
  }

  lemma EstimatesShifted(m: Measure, a: seq<real>, b: seq<real>, rounds: seq<Round>, c: real, e: real)
    requires Equivariant(m) && a != [] && b != [] && AreRounds(rounds, |a|, |b|)
    ensures AdjustedEstimates(m, Shifted(a, c + e), Shifted(b, c - e), rounds) == Shifted(AdjustedEstimates(m, a, b, rounds), c)
  {
    var d := AdjustedEstimates(m, a, b, rounds);
    var d' := AdjustedEstimates(m, Shifted(a, c + e), Shifted(b, c - e), rounds);
    forall k | 0 <= k < |rounds| ensures d'[k] == d[k] + c {
      ChosenShifted(a, rounds[k].first, c + e);
      ChosenShifted(b, rounds[k].second, c - e);
      AdjustedShifted(m, Chosen(a, rounds[k].first), Chosen(b, rounds[k].second), c, e);
    }
  }

  lemma AdjustedShifted(m: Measure, a: seq<real>, b: seq<real>, c: real, e: real)
    requires Equivariant(m) && a != [] && b != []
    ensures Adjusted(m, Shifted(a, c + e), Shifted(b, c - e)) == Adjusted(m, a, b) + c
  {}

  // --- Pooling the strata -------------------------------------------------------------------

  /** Every index once, in order. */
  function Everyone(n: nat): (r: seq<nat>)
    ensures |r| == n && forall i :: 0 <= i < n ==> r[i] == i
  {
    seq(n, i requires 0 <= i < n => i)
  }

  lemma {:induction false} StrataCount(records: seq<Record>, y: real)
    ensures AtMost(Stratum(records, true), y) + AtMost(Stratum(records, false), y) == AtMost(Differences(records), y)
    ensures |Stratum(records, true)| + |Stratum(records, false)| == |records|
  {
    if records != [] {
      var n := |records| - 1;
      var last := [records[n].difference];
      StrataCount(records[..n], y);
      assert Differences(records) == Differences(records[..n]) + last;
      AtMostBoth(Differences(records[..n]), last, y);
      AtMostBoth(Stratum(records[..n], records[n].baselineFirst), last, y);
      assert Stratum(records[..n], !records[n].baselineFirst) + [] == Stratum(records[..n], !records[n].baselineFirst);
    }
  }

  /** The two strata together are the records, in another order. */
  lemma StrataAreRecords(records: seq<Record>)
    ensures Sorted(Stratum(records, true) + Stratum(records, false)) == Sorted(Differences(records))
  {
    var a, b := Stratum(records, true), Stratum(records, false);
    StrataCount(records, 0.0);
    forall y ensures AtMost(a + b, y) == AtMost(Differences(records), y) {
      StrataCount(records, y);
      AtMostBoth(a, b, y);
    }
    SameCounts(a + b, Differences(records));
  }

  /** A round that draws every pair once reproduces both estimates. */
  lemma EveryoneReproduces(records: seq<Record>, p: real)
    requires records != [] && 0.0 <= p <= 1.0
    ensures var a, b := Stratum(records, true), Stratum(records, false);
            var x, y := Chosen(a, Everyone(|a|)), Chosen(b, Everyone(|b|));
            && Pooled(Percentile(p), x, y) == Percentile(p)(Differences(records))
            && Adjusted(Percentile(p), x, y) == Adjusted(Percentile(p), a, b)
  {
    var a, b := Stratum(records, true), Stratum(records, false);
    assert Chosen(a, Everyone(|a|)) == a && Chosen(b, Everyone(|b|)) == b;
    StrataAreRecords(records);
    StrataCount(records, 0.0);
    SortedDecides(a + b, Differences(records), p);
  }

  /** A percentile depends on the sorted sample alone. */
  lemma SortedDecides(a: seq<real>, b: seq<real>, p: real)
    requires Sorted(a) == Sorted(b)
    ensures Percentile(p)(a) == Percentile(p)(b)
  {
    SortedIs(a);
    SortedIs(b);
    assert |a| == |b|;
  }

  // --- With medians, as the analysis reports them -------------------------------------------

  ghost predicate IsComparison(c: Comparison, records: seq<Record>, rounds: seq<Round>) {
    && AreRounds(rounds, |Stratum(records, true)|, |Stratum(records, false)|)
    && Ok(c.median) == PooledStatistic(PercentileInterval, Percentile(0.5), records, rounds)
    && Ok(c.adjusted) ==
       AdjustedStatistic(PercentileInterval, Percentile(0.5), Stratum(records, true), Stratum(records, false), rounds)
  }

  /** Neither the median difference nor the order-adjusted one leaves the observed differences. */
  lemma ComparisonCoherent(c: Comparison, records: seq<Record>, rounds: seq<Round>)
    requires Stratum(records, true) != [] && Stratum(records, false) != [] && rounds != [] && IsComparison(c, records, rounds)
    ensures Quantile(Differences(records), 0.5) == Ok(c.median.estimate)
    ensures var a, b := Quantile(Stratum(records, true), 0.5), Quantile(Stratum(records, false), 0.5);
            a.Ok? && b.Ok? && c.adjusted.estimate == (a.value + b.value) / 2.0
    ensures forall lo, hi :: Within(Differences(records), lo, hi) ==> Bounded(c.median, lo, hi) && Bounded(c.adjusted, lo, hi)
  {
    PercentileIs(0.5, Differences(records));
    PercentileIs(0.5, Stratum(records, true));
    PercentileIs(0.5, Stratum(records, false));
    PercentileIntervalSound();
    PercentilesAre(0.5, 0.5);
    forall lo, hi | Within(Differences(records), lo, hi) ensures Bounded(c.median, lo, hi) && Bounded(c.adjusted, lo, hi) {
      ComparisonWithin(PercentileInterval, Percentile(0.5), records, rounds, lo, hi);
    }
  }

  /** The rounds that the generator makes from the seed. */
  ghost predicate RoundsFor(records: seq<Record>, resamples: int, seed: int, rounds: seq<Round>, end: Word) {
    && |Stratum(records, true)| <= MODULUS && |Stratum(records, false)| <= MODULUS && |rounds| == resamples
    && GeneratedRounds(seed % MODULUS, |Stratum(records, true)|, |Stratum(records, false)|, rounds, end)
  }

  /** What is reported for a seed. */
  ghost predicate Reports(c: Comparison, records: seq<Record>, resamples: int, seed: int) {
    exists rounds: seq<Round>, end ::
      RoundsFor(records, resamples, seed, rounds, end) && IsComparison(c, records, rounds)
  }

  /** `_paired_comparison`: the median difference and the order-adjusted median difference. */
  method Compare(records: seq<Record>, resamples: int, seed: int) returns (r: Result<Comparison>)
    requires |Stratum(records, true)| <= MODULUS && |Stratum(records, false)| <= MODULUS
    ensures r.Ok? <==> Stratum(records, true) != [] && Stratum(records, false) != [] && resamples >= 1
    ensures r.Ok? ==> Reports(r.value, records, resamples, seed)
    ensures r.Ok? ==> forall lo, hi :: Within(Differences(records), lo, hi) ==>
              Bounded(r.value.median, lo, hi) && Bounded(r.value.adjusted, lo, hi)
  {
    PercentileIntervalSound();
    ghost var rounds, end;
    r, rounds, end := CompareWith(PercentileInterval, Percentile(0.5), records, resamples, seed);
    if r.Ok? {
      assert RoundsFor(records, resamples, seed, rounds, end);
      ComparisonCoherent(r.value, records, rounds);
    }
  }

  /** The records of the same pairs when coming first in a pair costs `e` more and the candidate
      gains `c` more. */
  function Disturbed(records: seq<Record>, c: real, e: real): (r: seq<Record>)
    ensures |r| == |records|
    ensures forall i :: 0 <= i < |r| ==>
              r[i] == records[i].(difference := records[i].difference + if records[i].baselineFirst then c + e else c - e)
  {
    seq(|records|, i requires 0 <= i < |records| =>
      records[i].(difference := records[i].difference + if records[i].baselineFirst then c + e else c - e))
  }

  lemma {:induction false} DisturbedStrata(records: seq<Record>, c: real, e: real, side: bool)
    ensures Stratum(Disturbed(records, c, e), side) == Shifted(Stratum(records, side), if side then c + e else c - e)
  {
    if records != [] {
      var n := |records| - 1;
      assert Disturbed(records, c, e)[..n] == Disturbed(records[..n], c, e);
      DisturbedStrata(records[..n], c, e, side);
    }
  }

  lemma AdjustedMedianMoves(a: seq<real>, b: seq<real>, rounds: seq<Round>, c: real, e: real)
    requires a != [] && b != [] && rounds != [] && AreRounds(rounds, |a|, |b|)
    ensures MovesBy(PercentileInterval, Percentile(0.5), a, b, rounds, c, e)
  {
    PercentileIntervalSound();
    PercentilesAre(0.5, 0.5);
    OrderEffectCancels(PercentileInterval, Percentile(0.5), a, b, rounds, c, e);
  }

  lemma ReportsMove(r: Comparison, r': Comparison, records: seq<Record>, rounds: seq<Round>, c: real, e: real)
    requires Stratum(records, true) != [] && Stratum(records, false) != [] && rounds != []
    requires IsComparison(r, records, rounds) && IsComparison(r', Disturbed(records, c, e), rounds)
    ensures r'.adjusted == Statistic(r.adjusted.estimate + c, r.adjusted.low + c, r.adjusted.high + c)
  {
    DisturbedStrata(records, c, e, true);
    DisturbedStrata(records, c, e, false);
    AdjustedMedianMoves(Stratum(records, true), Stratum(records, false), rounds, c, e);
  }

  lemma LastRound(state: Word, m: nat, n: nat, rounds: seq<Round>, end: Word)
    requires m <= MODULUS && n <= MODULUS && rounds != [] && GeneratedRounds(state, m, n, rounds, end)
    ensures var r := rounds[|rounds| - 1];
            && GeneratedRounds(state, m, n, rounds[..|rounds| - 1], r.before) && end == r.after
            && (r.first, r.between) == Resampled(r.before, m) && (r.second, r.after) == Resampled(r.between, n)
  {}

  /** Seed, sizes of the strata and number of resamples determine every round. */
  lemma {:induction false} RoundsReproducible(state: Word, m: nat, n: nat, p: seq<Round>, end: Word, q: seq<Round>, end': Word)
    requires m <= MODULUS && n <= MODULUS && |p| == |q|
    requires GeneratedRounds(state, m, n, p, end) && GeneratedRounds(state, m, n, q, end')
    ensures p == q && end == end'
    decreases |p|
  {
    if p != [] {
      var k := |p| - 1;
      LastRound(state, m, n, p, end);
      LastRound(state, m, n, q, end');
      RoundsReproducible(state, m, n, p[..k], p[k].before, q[..k], q[k].before);
      SameToTheLast(p, q);
    }
  }

  /** The same seed gives the disturbed records the same rounds. */
  lemma SameRounds(records: seq<Record>, resamples: int, seed: int, c: real, e: real,
                   p: seq<Round>, end: Word, q: seq<Round>, end': Word)
    requires RoundsFor(records, resamples, seed, p, end) && RoundsFor(Disturbed(records, c, e), resamples, seed, q, end')
    ensures p == q
  {
    DisturbedStrata(records, c, e, true);
    DisturbedStrata(records, c, e, false);
    RoundsReproducible(seed % MODULUS, |Stratum(records, true)|, |Stratum(records, false)|, p, end, q, end');
  }

  /** The order-adjusted median difference that is reported moves by what the candidate gains and not
      at all with the running order, and so do both ends of its interval. */
  lemma ReportedOrderEffectCancels(r: Comparison, r': Comparison, records: seq<Record>, resamples: int, seed: int, c: real, e: real)
    requires Stratum(records, true) != [] && Stratum(records, false) != [] && resamples >= 1
    requires Reports(r, records, resamples, seed) && Reports(r', Disturbed(records, c, e), resamples, seed)
    ensures r'.adjusted == Statistic(r.adjusted.estimate + c, r.adjusted.low + c, r.adjusted.high + c)
  {
    var p, end :| RoundsFor(records, resamples, seed, p, end) && IsComparison(r, records, p);
    var q, end' :| RoundsFor(Disturbed(records, c, e), resamples, seed, q, end') && IsComparison(r', Disturbed(records, c, e), q);
    SameRounds(records, resamples, seed, c, e, p, end, q, end');
    ReportsMove(r, r', records, p, c, e);
  }
}
