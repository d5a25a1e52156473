/**
 The crossover run itself, and what ties it to the analysis: the rows that a run writes are
 accepted, and every accepted row is one that a run writes.
 */
module CrossoverRun {
  import opened Outcomes
  import opened Crossover

  /** What one trial brings: its duration and its evidence; none if it fails. */
  type Measurement = Key -> Option<(real, nat)>

  /** The row that `run_crossover` writes for a trial. */
  function Trial(b: Block, position: nat, seconds: real, evidence: nat): Row
    requires position < 4
  {
    var pair := if position < 2 then 0 else 2;
    var labels := Labels(b.sequence);
    Row(b.block, position, true, b.seed, b.phase, b.sequence, if labels[position] == A then Baseline else Candidate,
        [labels[pair], labels[pair + 1]], if position == 0 || position == 2 then 0 else 1, seconds, evidence)
  }

  /** The rows of the first `n` trials, block by block and position by position. */
  ghost predicate Written(rows: seq<Row>, schedule: seq<Block>, measure: Measurement, n: nat) {
    && |rows| == n <= 4 * |schedule|
    && forall k :: 0 <= k < n ==> IsTrial(rows[k], schedule, measure, k)
  }

  ghost predicate IsTrial(row: Row, schedule: seq<Block>, measure: Measurement, k: nat)
    requires k < 4 * |schedule|
  {
    var b, p := schedule[k / 4], k % 4;
    measure((b.block, p)).Some? && row == Trial(b, p, measure((b.block, p)).value.0, measure((b.block, p)).value.1)
  }

  /** No trial of the block fails, and all bring the same evidence. */
  ghost predicate Succeeds(b: Block, measure: Measurement) {
    && (forall p: nat {:trigger (b.block, p)} :: p < 4 ==> measure((b.block, p)).Some?)
    && (forall p: nat {:trigger (b.block, p)} :: p < 4 ==> measure((b.block, p)).value.1 == measure((b.block, 0)).value.1)
  }

  /** `run_crossover`: it stops at the first trial that fails or differs from its block. */
  method RunCrossover(schedule: seq<Block>, measure: Measurement) returns (r: Result<seq<Row>>)
    ensures r.Ok? <==> forall i :: 0 <= i < |schedule| ==> Succeeds(schedule[i], measure)
    ensures r.Ok? ==> Written(r.value, schedule, measure, 4 * |schedule|)
  {
    var rows: seq<Row> := [];
    for i := 0 to |schedule|
      invariant Written(rows, schedule, measure, 4 * i)
      invariant forall j :: 0 <= j < i ==> Succeeds(schedule[j], measure)
    {
      var ok;
      ok, rows := RunBlock(schedule, i, measure, rows);
      if !ok { return Error; }
    }
    r := Ok(rows);
  }

  /** The four trials of one block. */
  method RunBlock(schedule: seq<Block>, i: nat, measure: Measurement, before: seq<Row>) returns (ok: bool, rows: seq<Row>)
    requires i < |schedule| && Written(before, schedule, measure, 4 * i)
    ensures ok <==> Succeeds(schedule[i], measure)
    ensures ok ==> Written(rows, schedule, measure, 4 * i + 4)
  {
    rows := before;
    var b := schedule[i];
    var reference: Option<nat> := None;
    for p := 0 to 4
      invariant Written(rows, schedule, measure, 4 * i + p)
      invariant forall q: nat {:trigger (b.block, q)} :: q < p ==> measure((b.block, q)).Some?
      invariant reference.None? <==> p == 0
      invariant forall q: nat {:trigger (b.block, q)} :: q < p ==> reference == Some(measure((b.block, q)).value.1)
    {
      var outcome := measure((b.block, p));
      if outcome.None? { return false, rows; }
      if reference.Some? && reference.value != outcome.value.1 {
        assert measure((b.block, 0)).value.1 == reference.value;
        return false, rows;
      }
      reference := Some(outcome.value.1);
      rows := rows + [Trial(b, p, outcome.value.0, outcome.value.1)];
    }
    ok := true;
  }

  // --- Run and acceptance -------------------------------------------------------------------

  /** A row matches a block exactly when a run writes it for that block. */
  lemma IdenticalIsTrial(row: Row, b: Block)
    ensures Identical(row, b) && row.block == b.block <==>
            row.position < 4 && row.seconds > 0.0 && row == Trial(b, row.position, row.seconds, row.semantics)
  {
    if row.position < 4 {
      var p := row.position;
      assert p == 0 || p == 1 || p == 2 || p == 3;
      var l := Labels(b.sequence);
      assert Pair(b.sequence, p) == if p < 2 then [l[0], l[1]] else [l[2], l[3]];
    }
  }

  /** Accepted rows are trials of the schedule, to the last field. */
  lemma AcceptedAreTrials(results: seq<Row>, schedule: seq<Block>, k: nat) returns (b: Block)
    requires Accepted(results, schedule) && k < |results|
    ensures b in schedule && results[k].position < 4 && results[k].seconds > 0.0
    ensures results[k] == Trial(b, results[k].position, results[k].seconds, results[k].semantics)
  {
    assert Matches(results[k], schedule);
    b :| Holds(schedule, results[k].block, b) && Identical(results[k], b);
    IdenticalIsTrial(results[k], b);
  }

  lemma WrittenMatches(rows: seq<Row>, schedule: seq<Block>, measure: Measurement, k: nat)
    requires Written(rows, schedule, measure, 4 * |schedule|) && k < |rows| && rows[k].seconds > 0.0
    ensures Matches(rows[k], schedule) && KeyOf(rows[k]) == (schedule[k / 4].block, k % 4)
  {
    var b := schedule[k / 4];
    assert IsTrial(rows[k], schedule, measure, k);
    IdenticalIsTrial(rows[k], b);
    assert Holds(schedule, rows[k].block, b);
  }

  lemma WrittenDistinct(rows: seq<Row>, schedule: seq<Block>, measure: Measurement)
    requires Written(rows, schedule, measure, 4 * |schedule|) && DistinctBlocks(schedule)
    ensures DistinctKeys(rows)
  {
    forall i, j | 0 <= i < j < |rows| ensures KeyOf(rows[i]) != KeyOf(rows[j]) {
      assert IsTrial(rows[i], schedule, measure, i) && IsTrial(rows[j], schedule, measure, j);
      if i / 4 < j / 4 { assert schedule[i / 4].block != schedule[j / 4].block; }
    }
  }

  /** Evidence of a row, found again from its block. */
  ghost predicate Evident(row: Row, schedule: seq<Block>, measure: Measurement) {
    exists b :: b in schedule && b.block == row.block && Succeeds(b, measure) && row.semantics == measure((b.block, 0)).value.1
  }

  lemma WrittenEvident(rows: seq<Row>, schedule: seq<Block>, measure: Measurement, k: nat)
    requires Written(rows, schedule, measure, 4 * |schedule|) && k < |rows|
    requires forall i :: 0 <= i < |schedule| ==> Succeeds(schedule[i], measure)
    ensures Evident(rows[k], schedule, measure)
  {
    var b, p: nat := schedule[k / 4], k % 4;
    assert IsTrial(rows[k], schedule, measure, k) && Succeeds(b, measure);
    assert measure((b.block, p)).value.1 == measure((b.block, 0)).value.1;
  }

  lemma {:induction false} RowsOfAre(rows: seq<Row>, block: nat, r: Row)
    requires r in RowsOf(rows, block)
    ensures r in rows && r.block == block
  {
    if rows != [] && r in RowsOf(rows[..|rows| - 1], block) { RowsOfAre(rows[..|rows| - 1], block, r); }
  }

  lemma WrittenEvidence(rows: seq<Row>, schedule: seq<Block>, measure: Measurement)
    requires Written(rows, schedule, measure, 4 * |schedule|)
    requires forall i :: 0 <= i < |schedule| ==> Succeeds(schedule[i], measure)
    ensures SameEvidence(rows)
  {
    forall b ensures SameSemantics(RowsOf(rows, b)) {
      var of := RowsOf(rows, b);
      forall i | 0 < i < |of| ensures of[i].semantics == of[0].semantics {
        RowsOfAre(rows, b, of[i]);
        RowsOfAre(rows, b, of[0]);
        var k :| 0 <= k < |rows| && rows[k] == of[i];
        var l :| 0 <= l < |rows| && rows[l] == of[0];
        WrittenEvident(rows, schedule, measure, k);
        WrittenEvident(rows, schedule, measure, l);
      }
    }
  }

  /** What a whole run writes is accepted, if no block number repeats and every trial takes time. */
  lemma RunIsAccepted(rows: seq<Row>, schedule: seq<Block>, measure: Measurement)
    requires Written(rows, schedule, measure, 4 * |schedule|) && DistinctBlocks(schedule)
    requires forall i :: 0 <= i < |schedule| ==> Succeeds(schedule[i], measure)
    requires forall k :: 0 <= k < |rows| ==> rows[k].seconds > 0.0
    ensures Accepted(rows, schedule)
  {
    WrittenDistinct(rows, schedule, measure);
    WrittenEvidence(rows, schedule, measure);
    forall k | 0 <= k < |rows| ensures Matches(rows[k], schedule) { WrittenMatches(rows, schedule, measure, k); }
  }
}
