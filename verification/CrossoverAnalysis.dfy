/**
 What accepted crossover results mean: one row for every scheduled trial, block means from
 which order and drift cancel, speedups between the extreme blocks, and bootstrap intervals
 that respect the strata.
 */
module CrossoverAnalysis {
  import opened Outcomes
  import opened Crossover
  import opened OrderStatistics

  // --- A bijection with the schedule --------------------------------------------------------

  lemma {:induction false} KeysSize(results: seq<Row>)
    requires DistinctKeys(results)
    ensures |Keys(results)| == |results|
  {
    if results != [] {
      var n := |results| - 1;
      assert forall k :: 0 <= k < n ==> results[..n][k] == results[k];
      KeysSize(results[..n]);
      assert Keys(results) == Keys(results[..n]) + {KeyOf(results[n])};
    }
  }

  lemma SubsetOfSameSize(a: set<Key>, b: set<Key>)
    requires a <= b && |a| == |b|
    ensures a == b
  {
    assert b == a + (b - a);
  }

  /** Accepted rows and scheduled trials correspond one to one. */
  lemma Bijection(results: seq<Row>, schedule: seq<Block>)
    requires Acceptable(results, schedule)
    ensures Keys(results) == Expected(schedule).Keys && |Keys(results)| == |results|
  {
    KeysSize(results);
    ExpectedSize(schedule);
    forall k | k in Keys(results) ensures k in Expected(schedule) {
      var i :| 0 <= i < |results| && KeyOf(results[i]) == k;
      MatchesIs(results[i], schedule);
    }
    assert |Expected(schedule).Keys| == |Expected(schedule)|;
    SubsetOfSameSize(Keys(results), Expected(schedule).Keys);
  }

  // --- The rows of one block ----------------------------------------------------------------

  lemma {:induction false} RowsOfIs(results: seq<Row>, block: nat, r: Row)
    ensures r in RowsOf(results, block) <==> r in results && r.block == block
  {
    if results != [] {
      var n := |results| - 1;
      RowsOfIs(results[..n], block, r);
      assert results == results[..n] + [results[n]];
    }
  }

  ghost predicate DistinctPositions(rows: seq<Row>) {
    forall i, j :: 0 <= i < j < |rows| ==> rows[i].position != rows[j].position
  }

  lemma {:induction false} RowsOfDistinct(results: seq<Row>, block: nat)
    requires DistinctKeys(results)
    ensures DistinctPositions(RowsOf(results, block))
  {
    if results != [] {
      var n := |results| - 1;
      var last := results[n];
      assert forall k :: 0 <= k < n ==> results[..n][k] == results[k];
      RowsOfDistinct(results[..n], block);
      if last.block == block {
        var before := RowsOf(results[..n], block);
        forall i | 0 <= i < |before| ensures before[i].position != last.position {
          RowsOfIs(results[..n], block, before[i]);
          var k :| 0 <= k < n && results[..n][k] == before[i];
          assert KeyOf(results[k]) != KeyOf(results[n]);
        }
      }
    }
  }

  /** The time at each position of a block. */
  ghost predicate TimesAt(rows: seq<Row>, b: Block, time: seq<real>) {
    && |rows| == 4 && |time| == 4 && DistinctPositions(rows)
    && forall i :: 0 <= i < 4 ==> Identical(rows[i], b) && rows[i].seconds == time[rows[i].position]
  }

  ghost predicate Covers(rows: seq<Row>, p: nat) { exists i :: 0 <= i < |rows| && rows[i].position == p }

  lemma PositionsSize(rows: seq<Row>)
    requires DistinctPositions(rows) && forall i :: 0 <= i < |rows| ==> rows[i].position < 4
    requires Covers(rows, 0) && Covers(rows, 1) && Covers(rows, 2) && Covers(rows, 3)
    ensures |rows| == 4
  {
    var i0 :| 0 <= i0 < |rows| && rows[i0].position == 0;
    var i1 :| 0 <= i1 < |rows| && rows[i1].position == 1;
    var i2 :| 0 <= i2 < |rows| && rows[i2].position == 2;
    var i3 :| 0 <= i3 < |rows| && rows[i3].position == 3;
    forall k: int | 0 <= k < |rows| ensures OneOf(k, i0, i1, i2, i3) {
      assert rows[k].position == 0 || rows[k].position == 1 || rows[k].position == 2 || rows[k].position == 3;
    }
    Indices(|rows|, i0, i1, i2, i3);
  }

  lemma Indices(n: nat, a: nat, b: nat, c: nat, d: nat)
    requires a < n && b < n && c < n && d < n && a != b && a != c && a != d && b != c && b != d && c != d
    requires forall k: int :: 0 <= k < n ==> OneOf(k, a, b, c, d)
    ensures n == 4
  {
    assert n > 4 ==> OneOf(0, a, b, c, d) && OneOf(1, a, b, c, d) && OneOf(2, a, b, c, d);
    assert n > 4 ==> OneOf(3, a, b, c, d) && OneOf(4, a, b, c, d);
  }

  ghost predicate OneOf(k: int, a: int, b: int, c: int, d: int) { k == a || k == b || k == c || k == d }

  lemma Covered(results: seq<Row>, schedule: seq<Block>, b: Block, p: nat)
    requires Acceptable(results, schedule) && b in schedule && p < 4
    ensures Covers(RowsOf(results, b.block), p)
  {
    Bijection(results, schedule);
    ExpectedIs(schedule, (b.block, p));
    assert Holds(schedule, b.block, b);
    assert (b.block, p) in Keys(results);
    var k :| 0 <= k < |results| && KeyOf(results[k]) == (b.block, p);
    RowsOfIs(results, b.block, results[k]);
  }

  lemma AllIdentical(results: seq<Row>, schedule: seq<Block>, b: Block)
    requires Acceptable(results, schedule) && b in schedule
    ensures forall i :: 0 <= i < |RowsOf(results, b.block)| ==> Identical(RowsOf(results, b.block)[i], b)
  {
    var rows := RowsOf(results, b.block);
    forall i | 0 <= i < |rows| ensures Identical(rows[i], b) {
      RowsOfIs(results, b.block, rows[i]);
      var k :| 0 <= k < |results| && results[k] == rows[i];
      var c :| Holds(schedule, results[k].block, c) && Identical(results[k], c);
      HoldsUnique(schedule, b.block, b, c);
    }
  }

  /** Every scheduled block has exactly four rows, one for each position. */
  lemma BlockOfFour(results: seq<Row>, schedule: seq<Block>, b: Block) returns (time: seq<real>)
    requires Acceptable(results, schedule) && b in schedule
    ensures TimesAt(RowsOf(results, b.block), b, time) && AllPositive(time)
  {
    var rows := RowsOf(results, b.block);
    RowsOfDistinct(results, b.block);
    AllIdentical(results, schedule, b);
    Covered(results, schedule, b, 0); Covered(results, schedule, b, 1);
    Covered(results, schedule, b, 2); Covered(results, schedule, b, 3);
    PositionsSize(rows);
    time := Times(rows);
  }

  lemma Times(rows: seq<Row>) returns (time: seq<real>)
    requires Covers(rows, 0) && Covers(rows, 1) && Covers(rows, 2) && Covers(rows, 3) && DistinctPositions(rows)
    requires forall i :: 0 <= i < |rows| ==> rows[i].position < 4 && rows[i].seconds > 0.0
    ensures |time| == 4 && AllPositive(time)
    ensures forall i :: 0 <= i < |rows| ==> rows[i].seconds == time[rows[i].position]
  {
    var i0 :| 0 <= i0 < |rows| && rows[i0].position == 0;
    var i1 :| 0 <= i1 < |rows| && rows[i1].position == 1;
    var i2 :| 0 <= i2 < |rows| && rows[i2].position == 2;
    var i3 :| 0 <= i3 < |rows| && rows[i3].position == 3;
    time := [rows[i0].seconds, rows[i1].seconds, rows[i2].seconds, rows[i3].seconds];
    forall i | 0 <= i < |rows| ensures rows[i].seconds == time[rows[i].position] {
      assert rows[i].position == 0 || rows[i].position == 1 || rows[i].position == 2 || rows[i].position == 3;
    }
  }

  // --- Block means --------------------------------------------------------------------------

  function SumIf(rows: seq<Row>, profile: Profile): real {
    if rows == [] then 0.0
    else SumIf(rows[..|rows| - 1], profile) + if rows[|rows| - 1].profile == profile then rows[|rows| - 1].seconds else 0.0
  }

  function CountIf(rows: seq<Row>, profile: Profile): nat {
    if rows == [] then 0
    else CountIf(rows[..|rows| - 1], profile) + if rows[|rows| - 1].profile == profile then 1 else 0
  }

  /** `block_mean` over a profile. */
  function BlockMean(rows: seq<Row>, profile: Profile): real
    requires CountIf(rows, profile) > 0
  {
    SumIf(rows, profile) / CountIf(rows, profile) as real
  }

  function Part(r: Row, profile: Profile): real { if r.profile == profile then r.seconds else 0.0 }
  function One(r: Row, profile: Profile): nat { if r.profile == profile then 1 else 0 }

  lemma SumPush(rows: seq<Row>, r: Row, profile: Profile)
    ensures SumIf(rows + [r], profile) == SumIf(rows, profile) + Part(r, profile)
    ensures CountIf(rows + [r], profile) == CountIf(rows, profile) + One(r, profile)
  {
    assert (rows + [r])[..|rows|] == rows;
  }

  lemma FourRows(rows: seq<Row>, profile: Profile)
    requires |rows| == 4
    ensures SumIf(rows, profile) == Part(rows[0], profile) + Part(rows[1], profile) + Part(rows[2], profile) + Part(rows[3], profile)
    ensures CountIf(rows, profile) == One(rows[0], profile) + One(rows[1], profile) + One(rows[2], profile) + One(rows[3], profile)
  {
    SumPush([], rows[0], profile);
    SumPush([rows[0]], rows[1], profile);
    SumPush([rows[0], rows[1]], rows[2], profile);
    SumPush([rows[0], rows[1], rows[2]], rows[3], profile);
    assert [] + [rows[0]] == [rows[0]] && [rows[0]] + [rows[1]] == [rows[0], rows[1]];
    assert [rows[0], rows[1]] + [rows[2]] == [rows[0], rows[1], rows[2]];
    assert [rows[0], rows[1], rows[2]] + [rows[3]] == rows;
  }

  /** The positions of a profile in a sequence; the other profile has the other two. */
  function Positions(s: Sequence, profile: Profile): (nat, nat) {
    if (s == ABBA) == (profile == Baseline) then (0, 3) else (1, 2)
  }

  lemma ProfileAt(row: Row, b: Block, profile: Profile)
    requires Identical(row, b)
    ensures row.profile == profile <==>
            row.position == Positions(b.sequence, profile).0 || row.position == Positions(b.sequence, profile).1
  {
    assert row.position == 0 || row.position == 1 || row.position == 2 || row.position == 3;
  }

  function Share(time: seq<real>, at: nat, p: nat, q: nat): real
    requires |time| == 4 && at < 4
  {
    if at == p || at == q then time[at] else 0.0
  }

  function Hit(at: nat, p: nat, q: nat): nat { if at == p || at == q then 1 else 0 }

  /** Four distinct positions below four are all of them, so the chosen two appear once each. */
  lemma Permuted(time: seq<real>, a: nat, b: nat, c: nat, d: nat, p: nat, q: nat)
    requires |time| == 4 && p < q < 4
    requires a < 4 && b < 4 && c < 4 && d < 4 && a != b && a != c && a != d && b != c && b != d && c != d
    ensures Share(time, a, p, q) + Share(time, b, p, q) + Share(time, c, p, q) + Share(time, d, p, q) == time[p] + time[q]
    ensures Hit(a, p, q) + Hit(b, p, q) + Hit(c, p, q) + Hit(d, p, q) == 2
  {}

  /** Whatever the order of the rows, a block mean is the mean of the profile's two positions. */
  lemma BlockMeanIs(rows: seq<Row>, b: Block, time: seq<real>, profile: Profile)
    requires TimesAt(rows, b, time)
    ensures CountIf(rows, profile) == 2
    ensures var (p, q) := Positions(b.sequence, profile); BlockMean(rows, profile) == (time[p] + time[q]) / 2.0
  {
    var (p, q) := Positions(b.sequence, profile);
    FourRows(rows, profile);
    forall i | 0 <= i < 4
      ensures rows[i].position < 4 && Part(rows[i], profile) == Share(time, rows[i].position, p, q)
      ensures One(rows[i], profile) == Hit(rows[i].position, p, q)
    {
      ProfileAt(rows[i], b, profile);
    }
    Permuted(time, rows[0].position, rows[1].position, rows[2].position, rows[3].position, p, q);
  }

  /** The candidate's mean over a block minus the baseline's. */
  function MeanDifference(rows: seq<Row>): real
    requires CountIf(rows, Baseline) > 0 && CountIf(rows, Candidate) > 0
  {
    BlockMean(rows, Candidate) - BlockMean(rows, Baseline)
  }

  /** The middle positions belong to one profile, the outer ones to the other. */
  lemma MeanDifferenceIs(rows: seq<Row>, b: Block, time: seq<real>)
    requires TimesAt(rows, b, time)
    ensures CountIf(rows, Baseline) == 2 && CountIf(rows, Candidate) == 2
    ensures MeanDifference(rows) ==
            (if b.sequence == ABBA then time[1] + time[2] - time[0] - time[3] else time[0] + time[3] - time[1] - time[2]) / 2.0
  {
    BlockMeanIs(rows, b, time, Baseline);
    BlockMeanIs(rows, b, time, Candidate);
  }

  /** The times of one block are those of the other with something added at every position. */
  ghost predicate Disturbed(time: seq<real>, time': seq<real>, added: seq<real>) {
    |time| == |time'| == |added| == 4 && forall p :: 0 <= p < 4 ==> time'[p] == time[p] + added[p]
  }

  /** Whatever was measured, adding an effect of the position leaves the difference of the block
      means alone exactly when the effect is as large on the outer positions as on the inner. */
  lemma CancelsExactlyWhenSymmetric(rows: seq<Row>, rows': seq<Row>, b: Block, time: seq<real>, time': seq<real>, added: seq<real>)
    requires TimesAt(rows, b, time) && TimesAt(rows', b, time') && Disturbed(time, time', added)
    ensures CountIf(rows, Baseline) == 2 && CountIf(rows, Candidate) == 2
    ensures CountIf(rows', Baseline) == 2 && CountIf(rows', Candidate) == 2
    ensures MeanDifference(rows') == MeanDifference(rows) <==> added[0] + added[3] == added[1] + added[2]
  {
    MeanDifferenceIs(rows, b, time);
    MeanDifferenceIs(rows', b, time');
  }

  /** What a trial gets for coming first or second in its pair, from a drift that is linear in the
      position, and from running the candidate. */
  function Effect(s: Sequence, p: nat, first: real, second: real, drift: real, gain: real): real
    requires p < 4
  {
    (if p % 2 == 0 then first else second) + drift * p as real + (if ProfileOf(Labels(s)[p]) == Candidate then gain else 0.0)
  }

  function Effects(s: Sequence, first: real, second: real, drift: real, gain: real): (r: seq<real>)
    ensures |r| == 4 && forall p :: 0 <= p < 4 ==> r[p] == Effect(s, p, first, second, drift, gain)
  {
    seq(4, p requires 0 <= p < 4 => Effect(s, p, first, second, drift, gain))
  }

  /** Whatever was measured, an effect of coming first or second in a pair and a linear drift cancel
      from the difference of the block means, and what the candidate gains shows in full. */
  lemma OrderAndDriftCancel(rows: seq<Row>, rows': seq<Row>, b: Block, time: seq<real>, time': seq<real>,
                            first: real, second: real, drift: real, gain: real)
    requires TimesAt(rows, b, time) && TimesAt(rows', b, time')
    requires Disturbed(time, time', Effects(b.sequence, first, second, drift, gain))
    ensures CountIf(rows, Baseline) == 2 && CountIf(rows, Candidate) == 2
    ensures CountIf(rows', Baseline) == 2 && CountIf(rows', Candidate) == 2
    ensures MeanDifference(rows') == MeanDifference(rows) + gain
  {
    MeanDifferenceIs(rows, b, time);
    MeanDifferenceIs(rows', b, time');
    var e := Effects(b.sequence, first, second, drift, gain);
    assert time'[0] == time[0] + e[0] && time'[1] == time[1] + e[1] && time'[2] == time[2] + e[2] && time'[3] == time[3] + e[3];
    EffectsDiffer(b.sequence, first, second, drift, gain);
  }

  lemma EffectsDiffer(s: Sequence, first: real, second: real, drift: real, gain: real)
    ensures var e := Effects(s, first, second, drift, gain);
            e[1] + e[2] - e[0] - e[3] == if s == ABBA then 2.0 * gain else -2.0 * gain
  {}

  /** In particular, a block without any other influence shows the difference of the two profiles. */
  lemma UndisturbedDifference(rows: seq<Row>, b: Block, time: seq<real>, base: real, cand: real, first: real, second: real, drift: real)
    requires TimesAt(rows, b, time)
    requires Disturbed([base, base, base, base], time, Effects(b.sequence, first, second, drift, cand - base))
    ensures CountIf(rows, Baseline) == 2 && CountIf(rows, Candidate) == 2 && MeanDifference(rows) == cand - base
  {
    MeanDifferenceIs(rows, b, time);
    EffectsDiffer(b.sequence, first, second, drift, cand - base);
  }

  // --- Ratios -------------------------------------------------------------------------------

  function Sum(s: seq<real>): real { if s == [] then 0.0 else Sum(s[..|s| - 1]) + s[|s| - 1] }

  /** Summing is additive, and the sum of one value is the value. */
  lemma {:induction false} SumIs(a: seq<real>, b: seq<real>, x: real)
    ensures Sum([x]) == x && Sum(a + b) == Sum(a) + Sum(b)
    decreases |b|
  {
    assert [x][..0] == [];
    if b == [] {
      assert a + b == a;
    } else {
      var n := |b| - 1;
      SumIs(a, b[..n], x);
      assert (a + b)[..|a| + n] == a + b[..n];
    }
  }

  ghost predicate AllPositive(s: seq<real>) { forall i :: 0 <= i < |s| ==> s[i] > 0.0 }

  function Scaled(s: seq<real>, k: real): (r: seq<real>)
    ensures |r| == |s| && forall i {:trigger r[i]} :: 0 <= i < |s| ==> r[i] == k * s[i]
  {
    seq(|s|, i requires 0 <= i < |s| => k * s[i])
  }

  /** Every block's ratio lies between the two bounds. */
  ghost predicate RatiosWithin(a: seq<real>, b: seq<real>, lo: real, hi: real) {
    Below(Scaled(b, lo), a) && Below(a, Scaled(b, hi))
  }

  lemma {:induction false} SumPositive(s: seq<real>)
    requires AllPositive(s)
    ensures s == [] || Sum(s) > 0.0
  {
    if s != [] { SumPositive(s[..|s| - 1]); }
  }

  lemma Distribute(k: real, x: real, y: real)
    ensures k * (x + y) == k * x + k * y
  {}

  lemma {:induction false} SumScaled(s: seq<real>, k: real)
    ensures Sum(Scaled(s, k)) == k * Sum(s)
  {
    if s != [] {
      var n := |s| - 1;
      SumScaled(s[..n], k);
      forall i | 0 <= i < n ensures Scaled(s, k)[..n][i] == Scaled(s[..n], k)[i] { assert s[..n][i] == s[i]; }
      assert Scaled(s, k)[..n] == Scaled(s[..n], k);
      Distribute(k, Sum(s[..n]), s[n]);
    }
  }

  lemma {:induction false} SumMonotone(a: seq<real>, b: seq<real>)
    requires Below(a, b)
    ensures Sum(a) <= Sum(b)
    decreases |a|
  {
    if a != [] { SumMonotone(a[..|a| - 1], b[..|b| - 1]); }
  }

  lemma StrictProduct(x: real, y: real)
    requires x > 0.0 && y > 0.0
    ensures x * y > 0.0
  {}

  lemma Divided(x: real, y: real, lo: real, hi: real)
    requires y > 0.0 && lo * y <= x <= hi * y
    ensures lo <= x / y <= hi
  {
    var r := x / y;
    assert r * y == x;
    assert (lo - r) * y == lo * y - x && (r - hi) * y == x - hi * y;
    if r < lo { StrictProduct(lo - r, y); }
    if r > hi { StrictProduct(r - hi, y); }
  }

  /** The overall speedup lies between the extreme block ratios. */
  lemma SpeedupWithin(a: seq<real>, b: seq<real>, lo: real, hi: real)
    requires a != [] && AllPositive(b) && RatiosWithin(a, b, lo, hi)
    ensures Sum(b) > 0.0 && lo <= Sum(a) / Sum(b) <= hi
  {
    Totals(a, b, lo, hi);
    Quotient(Sum(a), b, lo, hi);
  }

  lemma Totals(a: seq<real>, b: seq<real>, lo: real, hi: real)
    requires a != [] && AllPositive(b) && RatiosWithin(a, b, lo, hi)
    ensures Sum(b) > 0.0 && Sum(Scaled(b, lo)) <= Sum(a) <= Sum(Scaled(b, hi))
  {
    SumPositive(b);
    SumMonotone(Scaled(b, lo), a);
    SumMonotone(a, Scaled(b, hi));
  }

  lemma Quotient(x: real, b: seq<real>, lo: real, hi: real)
    requires Sum(b) > 0.0 && Sum(Scaled(b, lo)) <= x <= Sum(Scaled(b, hi))
    ensures lo <= x / Sum(b) <= hi
  {
    SumScaled(b, lo);
    SumScaled(b, hi);
    Divided(x, Sum(b), lo, hi);
  }

  // --- The stratified bootstrap -------------------------------------------------------------

  /** The measured blocks with a given sequence, by index. */
  function Stratum(sequences: seq<Sequence>, s: Sequence): seq<nat> {
    if sequences == [] then []
    else
      var n := |sequences| - 1;
      Stratum(sequences[..n], s) + if sequences[n] == s then [n] else []
  }

  lemma {:induction false} StratumIs(sequences: seq<Sequence>, s: Sequence)
    ensures |Stratum(sequences, s)| == Occurrences(sequences, s)
    ensures forall i :: i in Stratum(sequences, s) ==> i < |sequences| && sequences[i] == s
  {
    if sequences != [] { StratumIs(sequences[..|sequences| - 1], s); }
  }

  /** One draw: as many picks from either stratum as it has blocks. */
  ghost predicate Draw(picks: seq<nat>, sequences: seq<Sequence>) {
    var first, second := Stratum(sequences, ABBA), Stratum(sequences, BAAB);
    && |picks| == |first| + |second|
    && (forall i :: 0 <= i < |first| ==> picks[i] in first)
    && (forall i :: |first| <= i < |picks| ==> picks[i] in second)
  }

  lemma DrawInRange(picks: seq<nat>, sequences: seq<Sequence>)
    requires Draw(picks, sequences)
    ensures forall i :: 0 <= i < |picks| ==> picks[i] < |sequences|
    ensures |picks| == Occurrences(sequences, ABBA) + Occurrences(sequences, BAAB)
  {
    StratumIs(sequences, ABBA);
    StratumIs(sequences, BAAB);
  }

  lemma {:induction false} Uniform(s: seq<Sequence>, k: nat, x: Sequence, y: Sequence)
    requires x != y && k <= |s|
    requires forall i :: 0 <= i < |s| ==> s[i] == if i < k then x else y
    ensures Occurrences(s, x) == k && Occurrences(s, y) == |s| - k
  {
    if s != [] {
      var n := |s| - 1;
      Uniform(s[..n], if k <= n then k else n, x, y);
    }
  }

  /** A draw has as many blocks of either sequence as the data, an empty stratum included. */
  lemma DrawKeepsStrata(picks: seq<nat>, sequences: seq<Sequence>, s: Sequence)
    requires Draw(picks, sequences)
    ensures forall i :: 0 <= i < |picks| ==> picks[i] < |sequences|
    ensures Occurrences(Chosen(sequences, picks), s) == Occurrences(sequences, s)
  {
    DrawInRange(picks, sequences);
    StratumIs(sequences, ABBA);
    StratumIs(sequences, BAAB);
    Uniform(Chosen(sequences, picks), |Stratum(sequences, ABBA)|, ABBA, BAAB);
  }

  lemma {:induction false} OccurrencesTotal(s: seq<Sequence>)
    ensures Occurrences(s, ABBA) + Occurrences(s, BAAB) == |s|
  {
    if s != [] { OccurrencesTotal(s[..|s| - 1]); }
  }

  function Replicate(baseline: seq<real>, candidate: seq<real>, picks: seq<nat>): real
    requires |baseline| == |candidate| && forall i :: 0 <= i < |picks| ==> picks[i] < |baseline|
    requires Sum(Chosen(candidate, picks)) > 0.0
  {
    Sum(Chosen(baseline, picks)) / Sum(Chosen(candidate, picks))
  }

  /** Every bootstrap replicate of the speedup lies between the extreme block ratios. */
  lemma ReplicateWithin(baseline: seq<real>, candidate: seq<real>, picks: seq<nat>, lo: real, hi: real)
    requires |baseline| == |candidate| && picks != [] && forall i :: 0 <= i < |picks| ==> picks[i] < |baseline|
    requires AllPositive(candidate)
    ensures Sum(Chosen(candidate, picks)) > 0.0
    ensures RatiosWithin(baseline, candidate, lo, hi) ==> lo <= Replicate(baseline, candidate, picks) <= hi
  {
    var a, b := Chosen(baseline, picks), Chosen(candidate, picks);
    SumPositive(b);
    if RatiosWithin(baseline, candidate, lo, hi) {
      ChosenRatios(baseline, candidate, picks, lo, hi);
      SpeedupWithin(a, b, lo, hi);
    }
  }

  lemma ChosenRatios(baseline: seq<real>, candidate: seq<real>, picks: seq<nat>, lo: real, hi: real)
    requires forall i :: 0 <= i < |picks| ==> picks[i] < |baseline|
    requires RatiosWithin(baseline, candidate, lo, hi)
    ensures |baseline| == |candidate| && RatiosWithin(Chosen(baseline, picks), Chosen(candidate, picks), lo, hi)
  {
    var a, b := Chosen(baseline, picks), Chosen(candidate, picks);
    forall i | 0 <= i < |picks| ensures Scaled(b, lo)[i] <= a[i] <= Scaled(b, hi)[i] {
      assert Scaled(b, lo)[i] == Scaled(candidate, lo)[picks[i]];
      assert Scaled(b, hi)[i] == Scaled(candidate, hi)[picks[i]];
    }
  }

  // --- Percentile positions -----------------------------------------------------------------

  function LowIndex(n: nat): int {
    var i := Ceil(0.025 * n as real) - 1;
    if i < 0 then 0 else i
  }

  function HighIndex(n: nat): int { Ceil(0.975 * n as real) - 1 }

  /** Both positions are inside the list and in order, for every positive number of samples. */
  lemma IndicesInRange(n: nat)
    requires n >= 1
    ensures 0 <= LowIndex(n) <= HighIndex(n) < n
  {
    var x, y := 0.025 * n as real, 0.975 * n as real;
    assert x <= y && 0.0 < y <= n as real;
    CeilMonotone(x, y);
    CeilMonotone(y, n as real);
  }

  /** They are nearest ranks: the first position up to which at least 2.5 % and 97.5 % of the list lie. */
  lemma IndicesAreRanks(n: nat)
    requires n >= 1
    ensures 40 * (LowIndex(n) + 1) >= n && (LowIndex(n) > 0 ==> 40 * LowIndex(n) < n)
    ensures 40 * (HighIndex(n) + 1) >= 39 * n > 40 * HighIndex(n)
  {
    CeilIs(0.025 * n as real);
    CeilIs(0.975 * n as real);
  }

  lemma CeilIs(x: real)
    ensures Ceil(x) as real - 1.0 < x <= Ceil(x) as real
  {}

  lemma CeilMonotone(x: real, y: real)
    requires x <= y
    ensures Ceil(x) <= Ceil(y)
  {}

  ghost predicate Usable(baseline: seq<real>, candidate: seq<real>, sequences: seq<Sequence>) {
    |baseline| == |candidate| == |sequences| >= 1 && AllPositive(candidate)
  }

  ghost predicate IsReplicate(baseline: seq<real>, candidate: seq<real>, picks: seq<nat>, s: real)
    requires |baseline| == |candidate|
  {
    && (forall i :: 0 <= i < |picks| ==> picks[i] < |baseline|)
    && Sum(Chosen(candidate, picks)) > 0.0 && s == Replicate(baseline, candidate, picks)
  }

  /** The bootstrap loop and its interval: the two order statistics of the replicates. */
  method SpeedupInterval(baseline: seq<real>, candidate: seq<real>, sequences: seq<Sequence>, draws: seq<seq<nat>>)
      returns (r: Result<(real, real)>, ghost speedups: seq<real>)
    requires Usable(baseline, candidate, sequences)
    requires forall k :: 0 <= k < |draws| ==> Draw(draws[k], sequences)
    ensures r.Error? <==> draws == []
    ensures |speedups| == |draws|
    ensures forall k :: 0 <= k < |draws| ==> IsReplicate(baseline, candidate, draws[k], speedups[k])
    ensures r.Ok? ==> |Sorted(speedups)| == |draws| && 0 <= LowIndex(|draws|) <= HighIndex(|draws|) < |draws|
    ensures r.Ok? ==> r.value == (Sorted(speedups)[LowIndex(|draws|)], Sorted(speedups)[HighIndex(|draws|)])
    ensures r.Ok? ==> r.value.0 <= r.value.1
    ensures r.Ok? ==> forall lo, hi :: RatiosWithin(baseline, candidate, lo, hi) ==> lo <= r.value.0 && r.value.1 <= hi
  {
    var found: seq<real> := [];
    for k := 0 to |draws|
      invariant |found| == k && forall i :: 0 <= i < k ==> IsReplicate(baseline, candidate, draws[i], found[i])
      invariant forall lo, hi :: RatiosWithin(baseline, candidate, lo, hi) ==> Within(found, lo, hi)
    {
      var s := OneReplicate(baseline, candidate, sequences, draws[k]);
      found := found + [s];
    }
    speedups := found;
    if draws == [] { return Error, speedups; }
    var n := |found|;
    IndicesInRange(n);
    SortedIs(found);
    var values := Sorted(found);
    forall lo, hi | RatiosWithin(baseline, candidate, lo, hi) ensures Within(values, lo, hi) {
      SortedWithin(found, lo, hi);
    }
    r := Ok((values[LowIndex(n)], values[HighIndex(n)]));
  }

  method OneReplicate(baseline: seq<real>, candidate: seq<real>, sequences: seq<Sequence>, picks: seq<nat>)
      returns (s: real)
    requires Usable(baseline, candidate, sequences) && Draw(picks, sequences)
    ensures IsReplicate(baseline, candidate, picks, s)
    ensures forall lo, hi :: RatiosWithin(baseline, candidate, lo, hi) ==> lo <= s <= hi
  {
    DrawInRange(picks, sequences);
    OccurrencesTotal(sequences);
    forall lo, hi ensures Sum(Chosen(candidate, picks)) > 0.0 &&
                          (RatiosWithin(baseline, candidate, lo, hi) ==> lo <= Replicate(baseline, candidate, picks) <= hi) {
      ReplicateWithin(baseline, candidate, picks, lo, hi);
    }
    ReplicateWithin(baseline, candidate, picks, 0.0, 0.0);
    s := Replicate(baseline, candidate, picks);
  }

  // --- From accepted rows to the reported speedup -------------------------------------------

  /** The measured blocks, in the order of the schedule. */
  function MeasuredBlocks(schedule: seq<Block>): seq<Block> {
    if schedule == [] then []
    else
      var n := |schedule| - 1;
      MeasuredBlocks(schedule[..n]) + if schedule[n].phase == Measured then [schedule[n]] else []
  }

  lemma {:induction false} MeasuredBlocksAre(schedule: seq<Block>, b: Block)
    ensures b in MeasuredBlocks(schedule) <==> b in schedule && b.phase == Measured
  {
    if schedule != [] {
      var n := |schedule| - 1;
      MeasuredBlocksAre(schedule[..n], b);
      assert schedule == schedule[..n] + [schedule[n]];
    }
  }

  /** A schedule as it is made has its measured blocks at the end, all of them. */
  lemma {:induction false} MeasuredAtTheEnd(schedule: seq<Block>, warmup: nat)
    requires warmup <= |schedule|
    requires forall i :: 0 <= i < |schedule| ==> (schedule[i].phase == Measured <==> i >= warmup)
    ensures MeasuredBlocks(schedule) == schedule[warmup..]
    decreases |schedule|
  {
    if schedule != [] {
      var n := |schedule| - 1;
      if warmup <= n {
        MeasuredAtTheEnd(schedule[..n], warmup);
        assert schedule[warmup..] == schedule[..n][warmup..] + [schedule[n]];
      } else {
        MeasuredAtTheEnd(schedule[..n], n);
      }
    }
  }

  function Sequences(blocks: seq<Block>): (r: seq<Sequence>)
    ensures |r| == |blocks| && forall i :: 0 <= i < |r| ==> r[i] == blocks[i].sequence
  {
    seq(|blocks|, i requires 0 <= i < |blocks| => blocks[i].sequence)
  }

  /** Every block has two positive times of either profile. */
  ghost predicate Complete(results: seq<Row>, blocks: seq<Block>) {
    forall i :: 0 <= i < |blocks| ==> BothProfiles(RowsOf(results, blocks[i].block))
  }

  ghost predicate BothProfiles(rows: seq<Row>) {
    && CountIf(rows, Baseline) == 2 && CountIf(rows, Candidate) == 2
    && BlockMean(rows, Baseline) > 0.0 && BlockMean(rows, Candidate) > 0.0
  }

  lemma BlockComplete(results: seq<Row>, schedule: seq<Block>, b: Block)
    requires Acceptable(results, schedule) && b in schedule
    ensures BothProfiles(RowsOf(results, b.block))
  {
    var time := BlockOfFour(results, schedule, b);
    BlockMeanIs(RowsOf(results, b.block), b, time, Baseline);
    BlockMeanIs(RowsOf(results, b.block), b, time, Candidate);
  }

  /** Accepted rows give every measured block a mean for either profile. */
  lemma MeasuredComplete(results: seq<Row>, schedule: seq<Block>)
    requires Accepted(results, schedule)
    ensures Complete(results, MeasuredBlocks(schedule))
  {
    var blocks := MeasuredBlocks(schedule);
    forall i | 0 <= i < |blocks| ensures BothProfiles(RowsOf(results, blocks[i].block)) {
      MeasuredBlocksAre(schedule, blocks[i]);
      BlockComplete(results, schedule, blocks[i]);
    }
  }

  /** The block means of a profile. */
  ghost function Means(results: seq<Row>, blocks: seq<Block>, profile: Profile): (r: seq<real>)
    requires Complete(results, blocks)
    ensures |r| == |blocks| && AllPositive(r)
    ensures forall i :: 0 <= i < |r| ==>
              CountIf(RowsOf(results, blocks[i].block), profile) == 2 && r[i] == BlockMean(RowsOf(results, blocks[i].block), profile)
  {
    seq(|blocks|, i requires 0 <= i < |blocks| =>
      assert BothProfiles(RowsOf(results, blocks[i].block));
      BlockMean(RowsOf(results, blocks[i].block), profile))
  }

  datatype Analysis = Analysis(speedup: real, low: real, high: real)

  /** What the analysis needs: a sample to bootstrap, accepted rows with equal evidence per block, and
      two measured blocks. */
  ghost predicate Analyzable(results: seq<Row>, schedule: seq<Block>, samples: int) {
    samples >= 1 && Accepted(results, schedule) && |MeasuredBlocks(schedule)| >= 2
  }

  /** The block means of a profile, collected from the grouped rows. */
  method CollectMeans(grouped: map<nat, seq<Row>>, ghost results: seq<Row>, blocks: seq<Block>, profile: Profile)
      returns (means: seq<real>)
    requires Complete(results, blocks) && Grouped(grouped, results)
    ensures means == Means(results, blocks, profile)
  {
    means := [];
    for i := 0 to |blocks|
      invariant |means| == i && forall k :: 0 <= k < i ==> means[k] == Means(results, blocks, profile)[k]
    {
      assert BothProfiles(RowsOf(results, blocks[i].block));
      means := means + [BlockMean(grouped[blocks[i].block], profile)];
    }
  }

  /** The two order statistics of the replicates that are reported as the interval. */
  ghost predicate IsInterval(low: real, high: real, baseline: seq<real>, candidate: seq<real>, draws: seq<seq<nat>>, speedups: seq<real>)
    requires |baseline| == |candidate|
  {
    && draws != [] && |Sorted(speedups)| == |speedups| == |draws| && 0 <= LowIndex(|draws|) <= HighIndex(|draws|) < |draws|
    && (forall k :: 0 <= k < |draws| ==> IsReplicate(baseline, candidate, draws[k], speedups[k]))
    && low == Sorted(speedups)[LowIndex(|draws|)] && high == Sorted(speedups)[HighIndex(|draws|)]
  }

  /** The overall speedup and the interval of its replicates, all between the extreme block ratios. */
  ghost predicate Reported(a: Analysis, baseline: seq<real>, candidate: seq<real>, draws: seq<seq<nat>>)
    requires |baseline| == |candidate|
  {
    && Sum(candidate) > 0.0 && a.speedup == Sum(baseline) / Sum(candidate) && a.low <= a.high
    && (exists speedups :: IsInterval(a.low, a.high, baseline, candidate, draws, speedups))
    && forall lo, hi :: RatiosWithin(baseline, candidate, lo, hi) ==>
         lo <= a.speedup <= hi && lo <= a.low && a.high <= hi
  }

  /** `analyze_crossover`: from the rows of a run to the overall speedup and its bootstrap interval. All
      three lie between the smallest and the largest ratio of a measured block, whatever is drawn. */
  method Analyze(results: seq<Row>, schedule: seq<Block>, samples: int, draws: seq<seq<nat>>) returns (r: Result<Analysis>)
    requires samples >= 1 ==> |draws| == samples
    requires forall k :: 0 <= k < |draws| ==> Draw(draws[k], Sequences(MeasuredBlocks(schedule)))
    ensures r.Ok? <==> Analyzable(results, schedule, samples)
    ensures r.Ok? ==>
              var blocks := MeasuredBlocks(schedule);
              && Complete(results, blocks)
              && Reported(r.value, Means(results, blocks, Baseline), Means(results, blocks, Candidate), draws)
  {
    if samples < 1 { return Error; }
    var ok, grouped := Accept(results, schedule);
    if !ok { return Error; }
    var blocks := MeasuredBlocks(schedule);
    if |blocks| < 2 { return Error; }
    MeasuredComplete(results, schedule);
    var a := AnalyzeMeasured(grouped, results, blocks, draws);
    r := Ok(a);
  }

  method AnalyzeMeasured(grouped: map<nat, seq<Row>>, ghost results: seq<Row>, blocks: seq<Block>, draws: seq<seq<nat>>)
      returns (a: Analysis)
    requires Complete(results, blocks) && Grouped(grouped, results) && blocks != [] && draws != []
    requires forall k :: 0 <= k < |draws| ==> Draw(draws[k], Sequences(blocks))
    ensures Reported(a, Means(results, blocks, Baseline), Means(results, blocks, Candidate), draws)
  {
    var baseline := CollectMeans(grouped, results, blocks, Baseline);
    var candidate := CollectMeans(grouped, results, blocks, Candidate);
    a := Speedups(baseline, candidate, Sequences(blocks), draws);
  }

  method Speedups(baseline: seq<real>, candidate: seq<real>, sequences: seq<Sequence>, draws: seq<seq<nat>>) returns (a: Analysis)
    requires Usable(baseline, candidate, sequences) && draws != []
    requires forall k :: 0 <= k < |draws| ==> Draw(draws[k], sequences)
    ensures Reported(a, baseline, candidate, draws)
  {
    var interval, speedups := SpeedupInterval(baseline, candidate, sequences, draws);
    SumPositive(candidate);
    var speedup := Sum(baseline) / Sum(candidate);
    forall lo, hi | RatiosWithin(baseline, candidate, lo, hi) ensures lo <= speedup <= hi {
      SpeedupWithin(baseline, candidate, lo, hi);
    }
    a := Analysis(speedup, interval.value.0, interval.value.1);
    assert IsInterval(a.low, a.high, baseline, candidate, draws, speedups);
  }
}
