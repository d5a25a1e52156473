/**
 The seed-block crossover design: a balanced schedule of four-trial blocks, and the acceptance
 of results against it. Randomness is a parameter: any choice for an odd block and any
 shuffle of the sequences.
 */
module Crossover {
  import opened Outcomes

  datatype Label = A | B

  datatype Sequence = ABBA | BAAB

  datatype Phase = Warmup | Measured

  datatype Profile = Baseline | Candidate

  datatype Block = Block(block: nat, seed: int, phase: Phase, sequence: Sequence)

  function Labels(s: Sequence): (l: seq<Label>)
    ensures |l| == 4
  {
    match s
    case ABBA => [A, B, B, A]
    case BAAB => [B, A, A, B]
  }

  function ProfileOf(l: Label): Profile { if l == A then Baseline else Candidate }

  // --- The schedule -------------------------------------------------------------------------

  function Repeated(n: nat): seq<Sequence> { if n == 0 then [] else Repeated(n - 1) + [ABBA, BAAB] }

  /** The sequences of one phase before they are shuffled. */
  function Unshuffled(count: nat, choice: Sequence): seq<Sequence> {
    Repeated(count / 2) + if count % 2 == 1 then [choice] else []
  }

  ghost predicate Shuffle(order: seq<Sequence>, count: nat, choice: Sequence) {
    multiset(order) == multiset(Unshuffled(count, choice))
  }

  function Occurrences(order: seq<Sequence>, s: Sequence): nat {
    if order == [] then 0 else Occurrences(order[..|order| - 1], s) + if order[|order| - 1] == s then 1 else 0
  }

  lemma {:induction false} OccurrencesIs(order: seq<Sequence>, s: Sequence)
    ensures Occurrences(order, s) == multiset(order)[s]
  {
    if order != [] {
      var n := |order| - 1;
      OccurrencesIs(order[..n], s);
      assert order == order[..n] + [order[n]];
    }
  }

  lemma {:induction false} RepeatedIs(n: nat)
    ensures |Repeated(n)| == 2 * n
    ensures multiset(Repeated(n))[ABBA] == n && multiset(Repeated(n))[BAAB] == n
  {
    if n > 0 { RepeatedIs(n - 1); }
  }

  /** Whatever the choice and the shuffle, a phase has as many of either sequence, give or take one. */
  lemma ShuffleBalanced(order: seq<Sequence>, count: nat, choice: Sequence)
    requires Shuffle(order, count, choice)
    ensures |order| == count
    ensures Occurrences(order, ABBA) + Occurrences(order, BAAB) == count
    ensures -1 <= Occurrences(order, ABBA) - Occurrences(order, BAAB) <= 1
    ensures count % 2 == 0 ==> Occurrences(order, ABBA) == Occurrences(order, BAAB)
  {
    RepeatedIs(count / 2);
    OccurrencesIs(order, ABBA);
    OccurrencesIs(order, BAAB);
    assert |multiset(order)| == |order|;
    assert |multiset(Unshuffled(count, choice))| == |Unshuffled(count, choice)|;
  }

  ghost predicate Scheduled(schedule: seq<Block>, first: nat, phase: Phase, order: seq<Sequence>) {
    && first + |order| <= |schedule|
    && forall i :: 0 <= i < |order| ==> schedule[first + i] == Block(first + i, 1516 + first + i, phase, order[i])
  }

  ghost predicate Numbered(schedule: seq<Block>) {
    forall i :: 0 <= i < |schedule| ==> schedule[i].block == i && schedule[i].seed == 1516 + i
  }

  /** `make_schedule`: blocks are numbered in order, seeds are distinct, warm-up comes first. */
  method MakeSchedule(warmup: int, runs: int, choices: (Sequence, Sequence), orders: (seq<Sequence>, seq<Sequence>))
      returns (r: Result<seq<Block>>)
    requires warmup >= 0 ==> Shuffle(orders.0, warmup, choices.0)
    requires runs >= 0 ==> Shuffle(orders.1, runs, choices.1)
    ensures r.Error? <==> warmup < 0 || runs < 2
    ensures r.Ok? ==>
              && |r.value| == warmup + runs
              && Scheduled(r.value, 0, Warmup, orders.0) && Scheduled(r.value, warmup, Measured, orders.1)
              && Numbered(r.value)
  {
    if warmup < 0 || runs < 2 { return Error; }
    ShuffleBalanced(orders.0, warmup, choices.0);
    ShuffleBalanced(orders.1, runs, choices.1);
    var first := AppendPhase([], Warmup, orders.0);
    var schedule := AppendPhase(first, Measured, orders.1);
    forall i | 0 <= i < |orders.0| ensures schedule[0 + i] == Block(0 + i, 1516 + 0 + i, Warmup, orders.0[i]) {
      assert schedule[i] == first[0 + i];
    }
    r := Ok(schedule);
  }

  /** The inner loop: one block per sequence. */
  method AppendPhase(before: seq<Block>, phase: Phase, order: seq<Sequence>) returns (schedule: seq<Block>)
    ensures before <= schedule && |schedule| == |before| + |order|
    ensures Scheduled(schedule, |before|, phase, order)
    ensures Numbered(before) ==> Numbered(schedule)
  {
    schedule := before;
    for i := 0 to |order|
      invariant before <= schedule && |schedule| == |before| + i
      invariant Numbered(before) ==> Numbered(schedule)
      invariant forall k :: 0 <= k < i ==>
                  schedule[|before| + k] == Block(|before| + k, 1516 + |before| + k, phase, order[k])
    {
      var block := |schedule|;
      schedule := schedule + [Block(block, 1516 + block, phase, order[i])];
    }
  }

  // --- Accepting results --------------------------------------------------------------------

  datatype Row = Row(
    block: nat, position: nat, accepted: bool, seed: int, phase: Phase, sequence: Sequence,
    profile: Profile, order: seq<Label>, orderPosition: nat, seconds: real, semantics: nat)

  type Key = (nat, nat)

  ghost predicate DistinctBlocks(schedule: seq<Block>) {
    forall i, j :: 0 <= i < j < |schedule| ==> schedule[i].block != schedule[j].block
  }

  /** The two labels of the pair that a position belongs to. */
  function Pair(s: Sequence, position: nat): seq<Label>
    requires position < 4
  {
    Labels(s)[position / 2 * 2..position / 2 * 2 + 2]
  }

  /** The row is the trial that the schedule has at its block and position. */
  predicate Identical(row: Row, b: Block) {
    && row.position < 4 && row.accepted
    && row.seed == b.seed && row.phase == b.phase && row.sequence == b.sequence
    && row.profile == ProfileOf(Labels(b.sequence)[row.position])
    && row.order == Pair(b.sequence, row.position) && row.orderPosition == row.position % 2
    && row.seconds > 0.0
  }

  function KeyOf(row: Row): Key { (row.block, row.position) }

  ghost predicate Matches(row: Row, schedule: seq<Block>) {
    exists b :: Holds(schedule, row.block, b) && Identical(row, b)
  }

  ghost predicate DistinctKeys(results: seq<Row>) {
    forall i, j :: 0 <= i < j < |results| ==> KeyOf(results[i]) != KeyOf(results[j])
  }

  /** What acceptance asks of the rows. */
  ghost predicate Acceptable(results: seq<Row>, schedule: seq<Block>) {
    && DistinctBlocks(schedule) && |results| == 4 * |schedule| && DistinctKeys(results)
    && forall i :: 0 <= i < |results| ==> Matches(results[i], schedule)
  }

  function FourKeys(block: nat): set<Key> { {(block, 0), (block, 1), (block, 2), (block, 3)} }

  /** The expected trials: four positions per block; a repeated block number would overwrite. */
  function Expected(schedule: seq<Block>): map<Key, Block> {
    if schedule == [] then map[]
    else
      var b := schedule[|schedule| - 1];
      WithBlock(Expected(schedule[..|schedule| - 1]), b)
  }

  function WithBlock(expected: map<Key, Block>, b: Block): map<Key, Block> {
    expected + map k | k in FourKeys(b.block) :: b
  }

  lemma WithBlockIs(expected: map<Key, Block>, b: Block)
    ensures WithBlock(expected, b).Keys == expected.Keys + FourKeys(b.block)
    ensures |WithBlock(expected, b)| == |expected.Keys + FourKeys(b.block)|
  {
    assert |WithBlock(expected, b)| == |WithBlock(expected, b).Keys|;
  }

  /** The block that the schedule has under a number. */
  ghost predicate Holds(schedule: seq<Block>, number: nat, b: Block) {
    b.block == number && b in schedule
  }

  lemma {:induction false} ExpectedIs(schedule: seq<Block>, k: Key)
    ensures k in Expected(schedule) ==> k.1 < 4 && Holds(schedule, k.0, Expected(schedule)[k])
    ensures forall b :: Holds(schedule, k.0, b) && k.1 < 4 ==> k in Expected(schedule)
  {
    if schedule != [] {
      var n := |schedule| - 1;
      ExpectedIs(schedule[..n], k);
      assert schedule == schedule[..n] + [schedule[n]];
      assert k in FourKeys(schedule[n].block) <==> k.0 == schedule[n].block && k.1 < 4;
      forall b | Holds(schedule, k.0, b) && k.1 < 4 ensures k in Expected(schedule) {
        if b in schedule[..n] { assert Holds(schedule[..n], k.0, b); } else { assert b == schedule[n]; }
      }
    }
  }

  lemma FourKeysSize(block: nat)
    ensures |FourKeys(block)| == 4
  {}

  ghost predicate Repeats(schedule: seq<Block>, number: nat) {
    exists i :: 0 <= i < |schedule| && schedule[i].block == number
  }

  lemma RepeatsOverlaps(schedule: seq<Block>, number: nat)
    ensures Repeats(schedule, number) <==> Expected(schedule).Keys * FourKeys(number) != {}
  {
    var keys := Expected(schedule).Keys;
    if Repeats(schedule, number) {
      var i :| 0 <= i < |schedule| && schedule[i].block == number;
      ExpectedIs(schedule, (number, 0));
      assert Holds(schedule, number, schedule[i]);
      assert (number, 0) in keys * FourKeys(number);
    } else {
      forall k | k in keys ensures k !in FourKeys(number) {
        ExpectedIs(schedule, k);
        var i :| 0 <= i < |schedule| && schedule[i] == Expected(schedule)[k];
      }
    }
  }

  lemma DistinctPush(schedule: seq<Block>)
    requires schedule != []
    ensures DistinctBlocks(schedule) <==>
            DistinctBlocks(schedule[..|schedule| - 1]) && !Repeats(schedule[..|schedule| - 1], schedule[|schedule| - 1].block)
  {
    var n := |schedule| - 1;
    assert forall i :: 0 <= i < n ==> schedule[..n][i] == schedule[i];
    if DistinctBlocks(schedule[..n]) && !Repeats(schedule[..n], schedule[n].block) {
      forall i, j | 0 <= i < j < |schedule| ensures schedule[i].block != schedule[j].block {
        assert schedule[..n][i] == schedule[i];
      }
    }
  }

  /** All keys are there exactly when no block number repeats. */
  lemma {:induction false} ExpectedSize(schedule: seq<Block>)
    ensures |Expected(schedule)| <= 4 * |schedule|
    ensures |Expected(schedule)| == 4 * |schedule| <==> DistinctBlocks(schedule)
  {
    if schedule != [] {
      var n := |schedule| - 1;
      var before, four := Expected(schedule[..n]), FourKeys(schedule[n].block);
      ExpectedSize(schedule[..n]);
      RepeatsOverlaps(schedule[..n], schedule[n].block);
      DistinctPush(schedule);
      WithBlockIs(before, schedule[n]);
      UnionOfFour(before.Keys, schedule[n].block);
      assert |before| == |before.Keys|;
    }
  }

  lemma UnionOfFour(a: set<Key>, block: nat)
    ensures |a + FourKeys(block)| <= |a| + 4
    ensures |a + FourKeys(block)| == |a| + 4 <==> a * FourKeys(block) == {}
  {
    FourKeysSize(block);
    UnionSize(a, FourKeys(block));
  }

  lemma UnionSize(a: set<Key>, b: set<Key>)
    ensures |a + b| + |a * b| == |a| + |b|
    ensures a * b == {} <==> |a + b| == |a| + |b|
  {
    assert a + b == a + (b - a) && b == (b - a) + a * b;
  }

  lemma HoldsUnique(schedule: seq<Block>, number: nat, b: Block, b': Block)
    requires DistinctBlocks(schedule) && Holds(schedule, number, b) && Holds(schedule, number, b')
    ensures b == b'
  {
    var i :| 0 <= i < |schedule| && schedule[i] == b;
    var j :| 0 <= j < |schedule| && schedule[j] == b';
  }

  /** The row as the acceptance loop checks it. */
  lemma MatchesIs(row: Row, schedule: seq<Block>)
    requires DistinctBlocks(schedule)
    ensures Matches(row, schedule) <==>
            KeyOf(row) in Expected(schedule) && Identical(row, Expected(schedule)[KeyOf(row)])
  {
    ExpectedIs(schedule, KeyOf(row));
    if Matches(row, schedule) {
      var b :| Holds(schedule, row.block, b) && Identical(row, b);
      HoldsUnique(schedule, row.block, b, Expected(schedule)[KeyOf(row)]);
    }
  }

  /** The rows of one block, in the order of the results. */
  function RowsOf(results: seq<Row>, block: nat): seq<Row> {
    if results == [] then []
    else
      var r := results[|results| - 1];
      RowsOf(results[..|results| - 1], block) + if r.block == block then [r] else []
  }

  ghost function Keys(results: seq<Row>): set<Key> { set i | 0 <= i < |results| :: KeyOf(results[i]) }

  ghost predicate SameSemantics(rows: seq<Row>) {
    forall i :: 0 < i < |rows| ==> rows[i].semantics == rows[0].semantics
  }

  ghost predicate Grouped(grouped: map<nat, seq<Row>>, results: seq<Row>) {
    forall b :: (b in grouped <==> RowsOf(results, b) != []) && (b in grouped ==> grouped[b] == RowsOf(results, b))
  }

  lemma RowsOfPush(results: seq<Row>, row: Row, b: nat)
    ensures RowsOf(results + [row], b) == RowsOf(results, b) + if row.block == b then [row] else []
  {
    assert (results + [row])[..|results|] == results;
  }

  lemma GroupedPush(grouped: map<nat, seq<Row>>, results: seq<Row>, row: Row)
    requires Grouped(grouped, results)
    ensures Grouped(grouped[row.block := (if row.block in grouped then grouped[row.block] else []) + [row]], results + [row])
  {
    var grouped' := grouped[row.block := (if row.block in grouped then grouped[row.block] else []) + [row]];
    var next := results + [row];
    forall b ensures (b in grouped' <==> RowsOf(next, b) != []) && (b in grouped' ==> grouped'[b] == RowsOf(next, b)) {
      RowsOfPush(results, row, b);
      assert (b in grouped <==> RowsOf(results, b) != []) && (b in grouped ==> grouped[b] == RowsOf(results, b));
      assert RowsOf(results, b) + [] == RowsOf(results, b) && [] + [row] == [row];
    }
  }

  lemma KeysPush(results: seq<Row>, row: Row)
    ensures Keys(results + [row]) == Keys(results) + {KeyOf(row)}
    ensures DistinctKeys(results + [row]) <==> DistinctKeys(results) && KeyOf(row) !in Keys(results)
  {
    var next := results + [row];
    assert forall k :: 0 <= k < |results| ==> next[k] == results[k];
    assert next[|results|] == row;
    forall k | k in Keys(next) ensures k in Keys(results) + {KeyOf(row)} {}
    forall k | k in Keys(results) ensures k in Keys(next) {
      var i :| 0 <= i < |results| && KeyOf(results[i]) == k;
      assert KeyOf(next[i]) == k;
    }
    assert KeyOf(next[|results|]) in Keys(next);
  }

  lemma RepeatedKeyStays(results: seq<Row>, i: nat)
    requires i <= |results| && !DistinctKeys(results[..i])
    ensures !DistinctKeys(results)
  {
    assert forall k :: 0 <= k < i ==> results[..i][k] == results[k];
  }

  /** The test that the acceptance loop makes of every row. */
  function Fits(expected: map<Key, Block>): Row -> bool {
    row => KeyOf(row) in expected && Identical(row, expected[KeyOf(row)])
  }

  lemma FitsIs(results: seq<Row>, schedule: seq<Block>)
    requires DistinctBlocks(schedule)
    ensures (forall i :: 0 <= i < |results| ==> Fits(Expected(schedule))(results[i])) <==>
            (forall i :: 0 <= i < |results| ==> Matches(results[i], schedule))
  {
    forall i | 0 <= i < |results| ensures Fits(Expected(schedule))(results[i]) <==> Matches(results[i], schedule) {
      MatchesIs(results[i], schedule);
    }
  }

  /** Rows that match the schedule one by one, with the same evidence within every block. */
  ghost predicate Accepted(results: seq<Row>, schedule: seq<Block>) {
    Acceptable(results, schedule) && SameEvidence(results)
  }

  ghost predicate SameEvidence(results: seq<Row>) { forall b :: SameSemantics(RowsOf(results, b)) }

  /** The acceptance of `analyze_crossover`. */
  method Accept(results: seq<Row>, schedule: seq<Block>) returns (ok: bool, grouped: map<nat, seq<Row>>)
    ensures ok <==> Accepted(results, schedule)
    ensures ok ==> Grouped(grouped, results)
  {
    grouped := map[];
    ExpectedSize(schedule);
    if |Expected(schedule)| != 4 * |schedule| || |results| != |Expected(schedule)| { return false, grouped; }
    FitsIs(results, schedule);
    ok, grouped := ScanAll(results, Fits(Expected(schedule)));
  }

  method ScanAll(results: seq<Row>, fits: Row -> bool) returns (ok: bool, grouped: map<nat, seq<Row>>)
    ensures ok <==> && DistinctKeys(results) && (forall i :: 0 <= i < |results| ==> fits(results[i]))
                    && SameEvidence(results)
    ensures ok ==> Grouped(grouped, results)
  {
    var scanned;
    scanned, grouped := Scan(results, fits);
    if !scanned { return false, grouped; }
    ok := CheckSemantics(grouped);
    forall b | b !in grouped ensures SameSemantics(RowsOf(results, b)) {
      assert RowsOf(results, b) == [];
    }
    if !ok {
      ghost var b :| b in grouped && !SameSemantics(grouped[b]);
      assert !SameSemantics(RowsOf(results, b));
    }
  }

  /** The loop over the rows. */
  method Scan(results: seq<Row>, fits: Row -> bool) returns (ok: bool, grouped: map<nat, seq<Row>>)
    ensures ok <==> DistinctKeys(results) && forall i :: 0 <= i < |results| ==> fits(results[i])
    ensures ok ==> Grouped(grouped, results)
  {
    grouped := map[];
    var seen: set<Key> := {};
    assert results[..0] == [];
    for i := 0 to |results|
      invariant seen == Keys(results[..i]) && DistinctKeys(results[..i]) && Grouped(grouped, results[..i])
      invariant forall k :: 0 <= k < i ==> fits(results[k])
    {
      var row := results[i];
      assert results[..i + 1] == results[..i] + [row];
      GroupedPush(grouped, results[..i], row);
      KeysPush(results[..i], row);
      if KeyOf(row) in seen {
        RepeatedKeyStays(results, i + 1);
        return false, grouped;
      }
      if !fits(row) { return false, grouped; }
      seen := seen + {KeyOf(row)};
      grouped := grouped[row.block := (if row.block in grouped then grouped[row.block] else []) + [row]];
    }
    assert results[..|results|] == results;
    ok := true;
  }

  /** Every block's rows carry the same evidence. */
  method CheckSemantics(grouped: map<nat, seq<Row>>) returns (ok: bool)
    ensures ok <==> forall b :: b in grouped ==> SameSemantics(grouped[b])
  {
    var left := grouped.Keys;
    while left != {}
      invariant left <= grouped.Keys
      invariant forall b :: b in grouped && b !in left ==> SameSemantics(grouped[b])
      decreases |left|
    {
      var b :| b in left;
      var rows := grouped[b];
      var i := 1;
      while i < |rows|
        invariant forall k :: 0 < k < i && k < |rows| ==> rows[k].semantics == rows[0].semantics
      {
        if rows[i].semantics != rows[0].semantics { return false; }
        i := i + 1;
      }
      left := left - {b};
    }
    ok := true;
  }
}
