/**
 The percentile bootstrap of the benchmark analysis: resampling with the specified generator,
 the summaries of one sample, and the paired comparison of two strata. The loops are proved
 against functions of the data and the seed, and the laws are proved of those functions.
 */
module Bootstrap {
  import opened Outcomes
  import opened SplitMix
  import opened Sampler
  import opened OrderStatistics

  // --- Resampling ---------------------------------------------------------------------------

  /** The indices of one resample. */
  ghost predicate IsDraw(picks: seq<nat>, length: nat) {
    |picks| == length && forall i :: 0 <= i < length ==> picks[i] < length
  }

  /** The indices the generator picks, and the state it is left in. */
  ghost function AfterPicks(state: Word, length: nat, n: nat): Word
    requires 1 <= length <= MODULUS
  {
    if n == 0 then state else AfterPick(AfterPicks(state, length, n - 1), length)
  }

  ghost function Picks(state: Word, length: nat, n: nat): (r: seq<nat>)
    requires 1 <= length <= MODULUS
    ensures |r| == n && forall i :: 0 <= i < n ==> r[i] < length
  {
    if n == 0 then [] else Picks(state, length, n - 1) + [Pick(AfterPicks(state, length, n - 1), length)]
  }

  /** One resample of a list of the given length: the picks, and the state after them. */
  ghost function Resampled(state: Word, length: nat): (seq<nat>, Word)
    requires length <= MODULUS
  {
    if length == 0 then ([], state) else (Picks(state, length, length), AfterPicks(state, length, length))
  }

  /** `_resample`. */
  method Resample<T>(values: seq<T>, rng: SplitMix64) returns (sample: seq<T>, ghost picks: seq<nat>)
    requires |values| <= MODULUS
    modifies rng
    ensures IsDraw(picks, |values|) && sample == Chosen(values, picks)
    ensures (picks, rng.state) == Resampled(old(rng.state), |values|)
  {
    sample, picks := [], [];
    for i := 0 to |values|
      invariant i > 0 ==> picks == Picks(old(rng.state), |values|, i)
      invariant rng.state == if i == 0 then old(rng.state) else AfterPicks(old(rng.state), |values|, i)
      invariant |picks| == i && (forall n :: 0 <= n < i ==> picks[n] < |values|)
      invariant sample == Chosen(values, picks)
    {
      assert picks == Picks(old(rng.state), |values|, i);
      assert rng.state == AfterPicks(old(rng.state), |values|, i);
      var k, _ := rng.Index(|values|);
      sample, picks := sample + [values[k.value]], picks + [k.value];
    }
  }

  // --- One statistic ------------------------------------------------------------------------

  datatype Statistic = Statistic(estimate: real, low: real, high: real)

  /** An interval computed from a list of estimates. */
  type Interval = seq<real> -> Result<(real, real)>

  /** `_ci`. */
  function PercentileInterval(estimates: seq<real>): Result<(real, real)> {
    var low, high := Quantile(estimates, 0.025), Quantile(estimates, 0.975);
    if low.Ok? && high.Ok? then Ok((low.value, high.value)) else Error
  }

  /** `_statistic`. */
  function StatisticWith(ci: Interval, estimate: real, estimates: seq<real>): Result<Statistic> {
    var r := ci(estimates);
    if r.Ok? then Ok(Statistic(estimate, r.value.0, r.value.1)) else Error
  }

  /** What the laws ask of an interval: it exists exactly for some estimates, it is ordered and inside
      them, it grows with them, and it commutes with adding a constant. */
  ghost predicate Sound(ci: Interval) {
    && (forall d :: ci(d).Ok? <==> d != [])
    && (forall d, lo, hi :: d != [] && Within(d, lo, hi) ==> lo <= ci(d).value.0 <= ci(d).value.1 <= hi)
    && (forall d, e :: d != [] && Below(d, e) ==> ci(d).value.0 <= ci(e).value.0 && ci(d).value.1 <= ci(e).value.1)
    && (forall d, c :: ci(Shifted(d, c)) == Moved(ci(d), c))
  }

  function Moved(r: Result<(real, real)>, c: real): Result<(real, real)> {
    if r.Ok? then Ok((r.value.0 + c, r.value.1 + c)) else Error
  }

  lemma PercentileIntervalWithin(d: seq<real>, lo: real, hi: real)
    requires d != [] && Within(d, lo, hi)
    ensures PercentileInterval(d).Ok?
    ensures lo <= PercentileInterval(d).value.0 <= PercentileInterval(d).value.1 <= hi
  {
    QuantileWithin(d, 0.025, lo, hi);
    QuantileWithin(d, 0.975, lo, hi);
    QuantileMonotone(d, 0.025, 0.975);
  }

  lemma PercentileIntervalGrows(d: seq<real>, e: seq<real>)
    requires d != [] && Below(d, e)
    ensures PercentileInterval(d).Ok? && PercentileInterval(e).Ok?
    ensures PercentileInterval(d).value.0 <= PercentileInterval(e).value.0
    ensures PercentileInterval(d).value.1 <= PercentileInterval(e).value.1
  {
    QuantileDominates(d, e, 0.025);
    QuantileDominates(d, e, 0.975);
  }

  lemma QuantileMoved(d: seq<real>, p: real, c: real)
    requires 0.0 <= p <= 1.0
    ensures var q := Quantile(d, p); Quantile(Shifted(d, c), p) == if q.Ok? then Ok(q.value + c) else Error
  {
    if d != [] { QuantileShifted(d, p, c); }
  }

  lemma PercentileIntervalShifts(d: seq<real>, c: real)
    ensures PercentileInterval(Shifted(d, c)) == Moved(PercentileInterval(d), c)
  {
    QuantileMoved(d, 0.025, c);
    QuantileMoved(d, 0.975, c);
  }

  lemma Totality(ci: Interval)
    requires ci == PercentileInterval
    ensures forall d :: ci(d).Ok? <==> d != []
  {}

  lemma Containment(ci: Interval)
    requires ci == PercentileInterval && forall d :: ci(d).Ok? <==> d != []
    ensures forall d, lo, hi :: d != [] && Within(d, lo, hi) ==> lo <= ci(d).value.0 <= ci(d).value.1 <= hi
  {
    forall d, lo, hi | d != [] && Within(d, lo, hi) ensures lo <= ci(d).value.0 <= ci(d).value.1 <= hi {
      PercentileIntervalWithin(d, lo, hi);
    }
  }

  lemma Growth(ci: Interval)
    requires ci == PercentileInterval && forall d :: ci(d).Ok? <==> d != []
    ensures forall d, e :: d != [] && Below(d, e) ==> ci(d).value.0 <= ci(e).value.0 && ci(d).value.1 <= ci(e).value.1
  {
    forall d, e | d != [] && Below(d, e) ensures ci(d).value.0 <= ci(e).value.0 && ci(d).value.1 <= ci(e).value.1 {
      PercentileIntervalGrows(d, e);
    }
  }

  lemma Translation(ci: Interval)
    requires ci == PercentileInterval
    ensures forall d, c :: ci(Shifted(d, c)) == Moved(ci(d), c)
  {
    forall d, c ensures ci(Shifted(d, c)) == Moved(ci(d), c) {
      PercentileIntervalShifts(d, c);
    }
  }

  /** The percentile interval is such an interval. */
  lemma PercentileIntervalSound()
    ensures Sound(PercentileInterval)
  {
    Totality(PercentileInterval);
    Containment(PercentileInterval);
    Growth(PercentileInterval);
    Translation(PercentileInterval);
  }

  /** Where its ends are: one fortieth of the way in from either end of the sorted estimates. */
  lemma PercentileIntervalIs(d: seq<real>, k: nat, f: real, l: nat, g: real)
    requires k < |d| && 0.0 <= f <= 1.0 && (f != 0.0 ==> k + 1 < |d|)
    requires l < |d| && 0.0 <= g <= 1.0 && (g != 0.0 ==> l + 1 < |d|)
    requires (|d| - 1) as real / 40.0 == k as real + f && 39.0 * (|d| - 1) as real / 40.0 == l as real + g
    ensures |Sorted(d)| == |d|
    ensures PercentileInterval(d) == Ok((Linear(Sorted(d), k, f), Linear(Sorted(d), l, g)))
  {
    QuantileIs(d, 0.025, k, f);
    QuantileIs(d, 0.975, l, g);
  }

  ghost predicate StatisticBelow(a: Statistic, b: Statistic) {
    a.estimate <= b.estimate && a.low <= b.low && a.high <= b.high
  }

  // --- Summaries ----------------------------------------------------------------------------

  datatype Summary = Summary(median: Statistic, p95: Statistic, p99: Statistic)

  /** The resamples of a bootstrap: one draw each. */
  ghost predicate AreDraws(draws: seq<seq<nat>>, length: nat) {
    forall k :: 0 <= k < |draws| ==> IsDraw(draws[k], length)
  }

  ghost function Latest(state: Word, states: seq<Word>): Word { if states == [] then state else states[|states| - 1] }

  /** The draws are the ones that the generator makes from `state`; `states` are its states after each. */
  ghost predicate Generated(state: Word, length: nat, draws: seq<seq<nat>>, states: seq<Word>)
    requires length <= MODULUS
    decreases |draws|
  {
    && |states| == |draws|
    && (draws != [] ==>
          var n := |draws| - 1;
          && Generated(state, length, draws[..n], states[..n])
          && (draws[n], states[n]) == Resampled(Latest(state, states[..n]), length))
  }

  lemma GeneratedGrows(state: Word, length: nat, draws: seq<seq<nat>>, states: seq<Word>, picks: seq<nat>, next: Word)
    requires length <= MODULUS && Generated(state, length, draws, states)
    requires (picks, next) == Resampled(Latest(state, states), length)
    ensures Generated(state, length, draws + [picks], states + [next])
  {
    assert (draws + [picks])[..|draws|] == draws && (states + [next])[..|states|] == states;
  }

  /** Two lists that agree up to the last element and in it are the same. */
  lemma SameToTheLast<T>(a: seq<T>, b: seq<T>)
    requires |a| == |b| > 0 && a[..|a| - 1] == b[..|b| - 1] && a[|a| - 1] == b[|b| - 1]
    ensures a == b
  {
    assert a == a[..|a| - 1] + [a[|a| - 1]] && b == b[..|b| - 1] + [b[|b| - 1]];
  }

  lemma LastDraw(state: Word, length: nat, draws: seq<seq<nat>>, states: seq<Word>)
    requires length <= MODULUS && draws != [] && Generated(state, length, draws, states)
    ensures |states| == |draws|
    ensures var n := |draws| - 1;
            && Generated(state, length, draws[..n], states[..n])
            && (draws[n], states[n]) == Resampled(Latest(state, states[..n]), length)
  {}

  /** Seed, sample size and number of resamples determine every draw of the bootstrap. */
  lemma {:induction false} Reproducible(state: Word, length: nat, d: seq<seq<nat>>, s: seq<Word>, d': seq<seq<nat>>, s': seq<Word>)
    requires length <= MODULUS && |d| == |d'|
    requires Generated(state, length, d, s) && Generated(state, length, d', s')
    ensures d == d' && s == s'
    decreases |d|
  {
    if d != [] {
      var n := |d| - 1;
      LastDraw(state, length, d, s);
      LastDraw(state, length, d', s');
      Reproducible(state, length, d[..n], s[..n], d'[..n], s'[..n]);
      SameToTheLast(d, d');
      SameToTheLast(s, s');
    }
  }

  /** A location measure of a sample. */
  type Measure = seq<real> -> real

  /** A measure applied to every resample. */
  ghost function Estimates(f: Measure, values: seq<real>, draws: seq<seq<nat>>): (d: seq<real>)
    requires AreDraws(draws, |values|)
    ensures |d| == |draws| && forall k :: 0 <= k < |draws| ==> d[k] == f(Chosen(values, draws[k]))
  {
    seq(|draws|, k requires 0 <= k < |draws| => f(Chosen(values, draws[k])))
  }

  lemma EstimatesGrow(f: Measure, values: seq<real>, draws: seq<seq<nat>>, picks: seq<nat>)
    requires AreDraws(draws, |values|) && IsDraw(picks, |values|)
    ensures AreDraws(draws + [picks], |values|)
    ensures Estimates(f, values, draws + [picks]) == Estimates(f, values, draws) + [f(Chosen(values, picks))]
  {}

  /** The quantile of a non-empty sample at a fixed probability. */
  function Percentile(p: real): Measure {
    s => if Quantile(s, p).Ok? then Quantile(s, p).value else 0.0
  }

  lemma PercentileIs(p: real, s: seq<real>)
    requires s != [] && 0.0 <= p <= 1.0
    ensures Quantile(s, p) == Ok(Percentile(p)(s))
  {}

  /** The statistic of a sample for one measure and the given draws. */
  ghost function Summarized(ci: Interval, m: Measure, values: seq<real>, draws: seq<seq<nat>>): Result<Statistic>
    requires AreDraws(draws, |values|)
  {
    StatisticWith(ci, m(values), Estimates(m, values, draws))
  }

  /** The loop of `_summarize`: every measure of every resample. */
  method Distributions(f: Measure, g: Measure, h: Measure, values: seq<real>, n: nat, rng: SplitMix64)
      returns (fs: seq<real>, gs: seq<real>, hs: seq<real>, ghost draws: seq<seq<nat>>, ghost states: seq<Word>)
    requires |values| <= MODULUS
    modifies rng
    ensures |draws| == n && AreDraws(draws, |values|) && Generated(old(rng.state), |values|, draws, states)
    ensures fs == Estimates(f, values, draws) && gs == Estimates(g, values, draws) && hs == Estimates(h, values, draws)
  {
    fs, gs, hs, draws, states := [], [], [], [], [];
    for k := 0 to n
      invariant |draws| == k && AreDraws(draws, |values|)
      invariant Generated(old(rng.state), |values|, draws, states) && rng.state == Latest(old(rng.state), states)
      invariant fs == Estimates(f, values, draws)
      invariant gs == Estimates(g, values, draws)
      invariant hs == Estimates(h, values, draws)
    {
      var sample, picks := Resample(values, rng);
      EstimatesGrow(f, values, draws, picks);
      EstimatesGrow(g, values, draws, picks);
      EstimatesGrow(h, values, draws, picks);
      GeneratedGrows(old(rng.state), |values|, draws, states, picks, rng.state);
      draws, states := draws + [picks], states + [rng.state];
      fs, gs, hs := fs + [f(sample)], gs + [g(sample)], hs + [h(sample)];
    }
  }

  /** `_summarize` for any interval and any three measures; an empty sample or no resamples at all
      leave nothing to take a quantile of. */
  method SummarizeWith(ci: Interval, f: Measure, g: Measure, h: Measure, values: seq<real>, resamples: int, seed: int)
      returns (r: Result<Summary>, ghost draws: seq<seq<nat>>, ghost states: seq<Word>)
    requires Sound(ci) && |values| <= MODULUS
    ensures r.Ok? <==> values != [] && resamples >= 1
    ensures r.Ok? ==>
              && |draws| == resamples && AreDraws(draws, |values|)
              && Generated(seed % MODULUS, |values|, draws, states)
              && Ok(r.value.median) == Summarized(ci, f, values, draws)
              && Ok(r.value.p95) == Summarized(ci, g, values, draws)
              && Ok(r.value.p99) == Summarized(ci, h, values, draws)
  {
    draws, states := [], [];
    if values == [] { return Error, draws, states; }
    var rng := new SplitMix64(seed);
    var fs, gs, hs;
    fs, gs, hs, draws, states := Distributions(f, g, h, values, if resamples > 0 then resamples else 0, rng);
    var a, b, c := StatisticWith(ci, f(values), fs), StatisticWith(ci, g(values), gs), StatisticWith(ci, h(values), hs);
    if a.Error? || b.Error? || c.Error? { return Error, draws, states; }
    r := Ok(Summary(a.value, b.value, c.value));
  }

  /** A measure that stays inside its sample. */
  ghost predicate Inside(m: Measure) {
    forall s, lo, hi :: s != [] && Within(s, lo, hi) ==> lo <= m(s) <= hi
  }

  /** A measure that commutes with adding a constant. */
  ghost predicate Equivariant(m: Measure) {
    forall s, c :: s != [] ==> m(Shifted(s, c)) == m(s) + c
  }

  /** One measure is never above the other. */
  ghost predicate NeverAbove(f: Measure, g: Measure) {
    forall s :: s != [] ==> f(s) <= g(s)
  }

  /** Percentiles are such measures, in the order of their probabilities. */
  lemma PercentilesAre(p: real, q: real)
    requires 0.0 <= p <= q <= 1.0
    ensures Inside(Percentile(p)) && Equivariant(Percentile(p)) && NeverAbove(Percentile(p), Percentile(q))
  {
    forall s, lo, hi | s != [] && Within(s, lo, hi) ensures lo <= Percentile(p)(s) <= hi {
      PercentileIs(p, s);
      QuantileWithin(s, p, lo, hi);
    }
    forall s: seq<real>, c | s != [] ensures Percentile(p)(Shifted(s, c)) == Percentile(p)(s) + c {
      PercentileIs(p, s);
      PercentileIs(p, Shifted(s, c));
      QuantileShifted(s, p, c);
    }
    forall s: seq<real> | s != [] ensures Percentile(p)(s) <= Percentile(q)(s) {
      PercentileIs(p, s);
      PercentileIs(q, s);
      QuantileMonotone(s, p, q);
    }
  }

  lemma ChosenWithin(values: seq<real>, picks: seq<nat>, lo: real, hi: real)
    requires IsDraw(picks, |values|) && Within(values, lo, hi)
    ensures Within(Chosen(values, picks), lo, hi)
  {}

  /** Every interval the bootstrap reports stays inside the data, for every generator run. */
  lemma SummaryWithin(ci: Interval, m: Measure, values: seq<real>, draws: seq<seq<nat>>, lo: real, hi: real)
    requires Sound(ci) && Inside(m)
    requires values != [] && draws != [] && AreDraws(draws, |values|) && Within(values, lo, hi)
    ensures Summarized(ci, m, values, draws).Ok?
    ensures var s := Summarized(ci, m, values, draws).value;
            lo <= s.low <= s.high <= hi && lo <= s.estimate <= hi
  {
    var d := Estimates(m, values, draws);
    forall k | 0 <= k < |draws| ensures lo <= d[k] <= hi {
      ChosenWithin(values, draws[k], lo, hi);
      assert Chosen(values, draws[k]) != [];
    }
    assert Within(d, lo, hi);
  }

  /** A higher percentile has a higher estimate and a higher interval, from the same draws. */
  lemma SummariesOrdered(ci: Interval, f: Measure, g: Measure, values: seq<real>, draws: seq<seq<nat>>)
    requires Sound(ci) && NeverAbove(f, g) && values != [] && draws != [] && AreDraws(draws, |values|)
    ensures Summarized(ci, f, values, draws).Ok? && Summarized(ci, g, values, draws).Ok?
    ensures StatisticBelow(Summarized(ci, f, values, draws).value, Summarized(ci, g, values, draws).value)
  {
    var d, e := Estimates(f, values, draws), Estimates(g, values, draws);
    forall k | 0 <= k < |draws| ensures d[k] <= e[k] {
      assert Chosen(values, draws[k]) != [];
    }
    assert Below(d, e);
  }

  /** Every end of a statistic is inside the bounds, and the interval is in order. */
  ghost predicate Bounded(s: Statistic, lo: real, hi: real) {
    lo <= s.low <= s.high <= hi && lo <= s.estimate <= hi
  }

  /** The three statistics that `_summarize` reports, from given draws. */
  ghost predicate IsSummary(s: Summary, values: seq<real>, draws: seq<seq<nat>>) {
    && AreDraws(draws, |values|)
    && Ok(s.median) == Summarized(PercentileInterval, Percentile(0.5), values, draws)
    && Ok(s.p95) == Summarized(PercentileInterval, Percentile(0.95), values, draws)
    && Ok(s.p99) == Summarized(PercentileInterval, Percentile(0.99), values, draws)
  }

  lemma PercentileWithin(p: real, values: seq<real>, draws: seq<seq<nat>>, s: Statistic, lo: real, hi: real)
    requires 0.0 <= p <= 1.0 && values != [] && draws != [] && AreDraws(draws, |values|) && Within(values, lo, hi)
    requires Ok(s) == Summarized(PercentileInterval, Percentile(p), values, draws)
    ensures Bounded(s, lo, hi)
  {
    PercentileIntervalSound();
    PercentilesAre(p, p);
    SummaryWithin(PercentileInterval, Percentile(p), values, draws, lo, hi);
  }

  lemma PercentilesOrdered(p: real, q: real, values: seq<real>, draws: seq<seq<nat>>, s: Statistic, t: Statistic)
    requires 0.0 <= p <= q <= 1.0 && values != [] && draws != [] && AreDraws(draws, |values|)
    requires Ok(s) == Summarized(PercentileInterval, Percentile(p), values, draws)
    requires Ok(t) == Summarized(PercentileInterval, Percentile(q), values, draws)
    ensures StatisticBelow(s, t)
  {
    PercentileIntervalSound();
    PercentilesAre(p, q);
    SummariesOrdered(PercentileInterval, Percentile(p), Percentile(q), values, draws);
  }

  /** The reported numbers: the quantile of the sample, and the interval of the quantiles of the resamples. */
  lemma StatisticsAre(s: Summary, values: seq<real>, draws: seq<seq<nat>>)
    requires values != [] && IsSummary(s, values, draws)
    ensures Quantile(values, 0.5) == Ok(s.median.estimate)
    ensures Quantile(values, 0.95) == Ok(s.p95.estimate) && Quantile(values, 0.99) == Ok(s.p99.estimate)
    ensures PercentileInterval(Estimates(Percentile(0.5), values, draws)) == Ok((s.median.low, s.median.high))
    ensures PercentileInterval(Estimates(Percentile(0.95), values, draws)) == Ok((s.p95.low, s.p95.high))
    ensures PercentileInterval(Estimates(Percentile(0.99), values, draws)) == Ok((s.p99.low, s.p99.high))
  {
    PercentileIs(0.5, values); PercentileIs(0.95, values); PercentileIs(0.99, values);
  }

  /** For every sample and all draws, the median lies below the 95th percentile and that below the
      99th, in the estimate and in both ends, and none of them leaves the data. */
  lemma SummaryCoherent(s: Summary, values: seq<real>, draws: seq<seq<nat>>)
    requires values != [] && draws != [] && IsSummary(s, values, draws)
    ensures Quantile(values, 0.5) == Ok(s.median.estimate)
    ensures Quantile(values, 0.95) == Ok(s.p95.estimate) && Quantile(values, 0.99) == Ok(s.p99.estimate)
    ensures PercentileInterval(Estimates(Percentile(0.5), values, draws)) == Ok((s.median.low, s.median.high))
    ensures PercentileInterval(Estimates(Percentile(0.95), values, draws)) == Ok((s.p95.low, s.p95.high))
    ensures PercentileInterval(Estimates(Percentile(0.99), values, draws)) == Ok((s.p99.low, s.p99.high))
    ensures StatisticBelow(s.median, s.p95) && StatisticBelow(s.p95, s.p99)
    ensures forall lo, hi :: Within(values, lo, hi) ==>
              Bounded(s.median, lo, hi) && Bounded(s.p95, lo, hi) && Bounded(s.p99, lo, hi)
  {
    StatisticsAre(s, values, draws);
    PercentilesOrdered(0.5, 0.95, values, draws, s.median, s.p95);
    PercentilesOrdered(0.95, 0.99, values, draws, s.p95, s.p99);
    forall lo, hi | Within(values, lo, hi)
      ensures Bounded(s.median, lo, hi) && Bounded(s.p95, lo, hi) && Bounded(s.p99, lo, hi)
    {
      PercentileWithin(0.5, values, draws, s.median, lo, hi);
      PercentileWithin(0.95, values, draws, s.p95, lo, hi);
      PercentileWithin(0.99, values, draws, s.p99, lo, hi);
    }
  }

  /** `_summarize`: median, 95th and 99th percentile with their bootstrap intervals. */
  method Summarize(values: seq<real>, resamples: int, seed: int)
      returns (r: Result<Summary>, ghost draws: seq<seq<nat>>, ghost states: seq<Word>)
    requires |values| <= MODULUS
    ensures r.Ok? <==> values != [] && resamples >= 1
    ensures r.Ok? ==> |draws| == resamples && Generated(seed % MODULUS, |values|, draws, states)
    ensures r.Ok? ==> IsSummary(r.value, values, draws)
    ensures r.Ok? ==> StatisticBelow(r.value.median, r.value.p95) && StatisticBelow(r.value.p95, r.value.p99)
    ensures r.Ok? ==> forall lo, hi :: Within(values, lo, hi) ==>
              Bounded(r.value.median, lo, hi) && Bounded(r.value.p95, lo, hi) && Bounded(r.value.p99, lo, hi)
  {
    PercentileIntervalSound();
    r, draws, states :=
      SummarizeWith(PercentileInterval, Percentile(0.5), Percentile(0.95), Percentile(0.99), values, resamples, seed);
    if r.Ok? { SummaryCoherent(r.value, values, draws); }
  }
}
