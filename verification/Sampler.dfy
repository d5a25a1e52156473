/**
 Drawing an index without bias: the generator object, the rejection loop, how long it can
 run, and what it returns.
 */
module Sampler {
  import opened Division
  import opened Outcomes
  import opened SplitMix

  /** Draws at or above the limit are thrown away. */
  function Limit(length: nat): nat
    requires 1 <= length
  {
    MODULUS - MODULUS % length
  }

  /** The limit is the largest multiple of the length that is not above 2^64. */
  lemma LimitIsLargestMultiple(length: nat, k: nat)
    requires 1 <= length <= MODULUS
    ensures Limit(length) == MODULUS / length * length
    ensures 0 < Limit(length) <= MODULUS
    ensures k * length <= MODULUS ==> k * length <= Limit(length)
  {
    assert MODULUS == MODULUS / length * length + MODULUS % length;
    var q := MODULUS / length;
    Positive(q, length);
    if k > q {
      assert k * length == q * length + (k - q) * length;
      Scaled(k - q, length);
    } else {
      assert q * length == k * length + (q - k) * length;
    }
  }

  lemma Positive(q: nat, length: nat)
    requires length >= 1 && q == MODULUS / length && length <= MODULUS
    ensures q >= 1 && q * length >= 1
  {
    assert MODULUS == q * length + MODULUS % length;
    Scaled(q, length);
  }

  /** Beyond 2^64 the limit is zero and no draw is ever accepted, so the loop would not end. */
  lemma OversizedNeverAnswers(state: Word, length: nat, n: nat, r: nat)
    requires length > MODULUS
    ensures Limit(length) == 0 && !Answers(state, length, n, r)
  {
    Remainder(MODULUS, length, 0, MODULUS);
  }

  // --- How long the loop can run ------------------------------------------------------------

  ghost function Seen(state: Word, n: nat): set<nat> {
    if n == 0 then {} else Seen(state, n - 1) + {Draw(state, n)}
  }

  lemma {:induction false} SeenIs(state: Word, n: nat, x: nat)
    ensures x in Seen(state, n) <==> exists i :: 1 <= i <= n && x == Draw(state, i)
  {
    if n > 0 { SeenIs(state, n - 1, x); }
  }

  lemma {:induction false} SeenDistinct(state: Word, n: nat)
    requires n <= MODULUS
    ensures |Seen(state, n)| == n
  {
    if n > 0 {
      SeenDistinct(state, n - 1);
      SeenIs(state, n - 1, Draw(state, n));
      forall i | 1 <= i <= n - 1 ensures Draw(state, i) != Draw(state, n) {
        if Draw(state, i) == Draw(state, n) { DrawsDistinct(state, i, n); }
      }
    }
  }

  lemma {:induction false} IntervalSize(s: set<nat>, lo: nat, hi: nat)
    requires lo <= hi && forall x :: x in s ==> lo <= x < hi
    ensures |s| <= hi - lo
    decreases hi - lo
  {
    if lo == hi {
      assert s == {};
    } else if hi - 1 in s {
      IntervalSize(s - {hi - 1}, lo, hi - 1);
    } else {
      IntervalSize(s, lo, hi - 1);
    }
  }

  ghost predicate AllRejected(state: Word, n: nat, length: nat)
    requires 1 <= length
  {
    forall i :: 1 <= i <= n ==> Draw(state, i) >= Limit(length)
  }

  /** Distinct draws can hit the rejected tail only so often. */
  lemma RejectionsBounded(state: Word, n: nat, length: nat)
    requires 1 <= length <= MODULUS && n <= MODULUS && AllRejected(state, n, length)
    ensures n <= MODULUS % length
  {
    LimitIsLargestMultiple(length, 0);
    SeenDistinct(state, n);
    forall x | x in Seen(state, n) ensures Limit(length) <= x < MODULUS { SeenIs(state, n, x); }
    IntervalSize(Seen(state, n), Limit(length), MODULUS);
  }

  /** The sampler answers with the n-th draw: the first below the limit. */
  ghost predicate Answers(state: Word, length: nat, n: nat, r: nat)
    requires 1 <= length
  {
    && n >= 1 && AllRejected(state, n - 1, length)
    && Draw(state, n) < Limit(length) && r == Draw(state, n) % length
  }

  /** The answer and the number of draws are determined by state and length. */
  lemma AnswersUnique(state: Word, length: nat, n: nat, r: nat, n': nat, r': nat)
    requires 1 <= length && Answers(state, length, n, r) && Answers(state, length, n', r')
    ensures n == n' && r == r'
  {}

  /** The first accepted draw, from the k-th on. */
  ghost function FirstFrom(state: Word, length: nat, k: nat): (n: nat)
    requires 1 <= length <= MODULUS && 1 <= k <= MODULUS && AllRejected(state, k - 1, length)
    ensures Answers(state, length, n, Draw(state, n) % length)
    decreases MODULUS - k
  {
    if Draw(state, k) < Limit(length) then k
    else
      assert k <= MODULUS % length by { RejectionsBounded(state, k, length); }
      FirstFrom(state, length, k + 1)
  }

  /** The index the sampler picks in a state, and the state it leaves behind. */
  ghost function Pick(state: Word, length: nat): (r: nat)
    requires 1 <= length <= MODULUS
    ensures r < length
  {
    Draw(state, FirstFrom(state, length, 1)) % length
  }

  ghost function AfterPick(state: Word, length: nat): Word
    requires 1 <= length <= MODULUS
  {
    StateAfter(state, FirstFrom(state, length, 1))
  }

  lemma PickIs(state: Word, length: nat, n: nat, r: nat)
    requires 1 <= length <= MODULUS && Answers(state, length, n, r)
    ensures r == Pick(state, length) && StateAfter(state, n) == AfterPick(state, length)
  {
    AnswersUnique(state, length, n, r, FirstFrom(state, length, 1), Pick(state, length));
  }

  class SplitMix64 {
    var state: Word

    constructor (seed: int)
      ensures state == seed % MODULUS
    {
      state := seed % MODULUS;
    }

    method NextU64() returns (value: Word)
      modifies this
      ensures state == StateAfter(old(state), 1)
      ensures value == Draw(old(state), 1)
    {
      state := (state + INCREMENT) % MODULUS;
      value := state;
      value := TimesA(Scramble(value, 30));
      value := TimesB(Scramble(value, 27));
      value := Scramble(value, 31);
    }

    /** `index`: an empty range is an error; otherwise the loop ends after at most
        (2^64 mod length) + 1 draws. */
    method Index(length: int) returns (r: Result<nat>, ghost draws: nat)
      requires length <= MODULUS
      modifies this
      ensures r.Error? <==> length < 1
      ensures r.Error? ==> draws == 0
      ensures r.Ok? ==> r.value < length && Answers(old(state), length, draws, r.value)
      ensures r.Ok? ==> r.value == Pick(old(state), length) && state == AfterPick(old(state), length)
      ensures r.Ok? ==> 1 <= draws <= MODULUS % length + 1
      ensures state == StateAfter(old(state), draws)
    {
      draws := 0;
      if length < 1 {
        Unmoved(state);
        return Error, 0;
      }
      var limit := MODULUS - MODULUS % length;
      while true
        invariant state == StateAfter(old(state), draws)
        invariant draws <= MODULUS % length && AllRejected(old(state), draws, length)
        decreases MODULUS % length - draws
      {
        OneMoreDraw(old(state), draws);
        var value := NextU64();
        draws := draws + 1;
        if value < limit {
          PickIs(old(state), length, draws, value % length);
          return Ok(value % length), draws;
        }
        RejectionsBounded(old(state), draws, length);
      }
    }
  }

  lemma OneMoreDraw(state: Word, n: nat)
    ensures StateAfter(StateAfter(state, n), 1) == StateAfter(state, n + 1)
    ensures Draw(StateAfter(state, n), 1) == Draw(state, n + 1)
  {
    StateAfterNext(state, n);
  }

  lemma Unmoved(state: Word)
    ensures StateAfter(state, 0) == state
  {}

  // --- No bias ------------------------------------------------------------------------------

  /** The draws below `n` that are turned into index `r`. */
  ghost function Preimages(n: nat, length: nat, r: nat): set<nat>
    requires 1 <= length
  {
    set v | 0 <= v < n && v % length == r
  }

  lemma {:induction false} PreimagesOfMultiple(q: nat, length: nat, r: nat)
    requires r < length
    ensures |Preimages(q * length, length, r)| == q
  {
    if q == 0 {
      assert Preimages(0 * length, length, r) == {};
    } else {
      PreimagesOfMultiple(q - 1, length, r);
      var low := (q - 1) * length;
      assert q * length == low + length;
      var old', new' := Preimages(low, length, r), Preimages(q * length, length, r);
      var v := low + r;
      Remainder(v, length, q - 1, r);
      forall x | x in new' ensures x in old' + {v} {
        if x >= low {
          Remainder(x, length, q - 1, x - low);
        }
      }
      assert new' == old' + {v};
    }
  }

  /** Every index has the same number of accepted draws. */
  lemma Unbiased(length: nat, r: nat)
    requires 1 <= length <= MODULUS && r < length
    ensures |Preimages(Limit(length), length, r)| == Limit(length) / length
  {
    LimitIsLargestMultiple(length, 0);
    var q := MODULUS / length;
    Remainder(q * length, length, q, 0);
    PreimagesOfMultiple(q, length, r);
  }

  /** The state from which the next draw is `v`. */
  ghost function StateBefore(v: Word): Word { (Unmix(v) + MODULUS - INCREMENT) % MODULUS }

  lemma StateBeforeIs(v: Word, s: Word)
    ensures Draw(s, 1) == v <==> s == StateBefore(v)
  {
    DrawIs(s, v);
    StepBack(s, Unmix(v));
  }

  lemma DrawIs(s: Word, v: Word)
    ensures Draw(s, 1) == v <==> StateAfter(s, 1) == Unmix(v)
  {
    MixBijective(v);
    MixBijective(StateAfter(s, 1));
  }

  lemma StepBack(s: Word, u: Word)
    ensures StateAfter(s, 1) == u <==> s == (u + MODULUS - INCREMENT) % MODULUS
  {}

  /** The states from which the sampler answers `r` at once. */
  ghost predicate StatesFor(states: set<nat>, length: nat, r: nat)
    requires 1 <= length
  {
    forall s: nat :: s in states <==> s < MODULUS && Answers(s, length, 1, r)
  }

  lemma {:induction false} ImageSize(vs: set<nat>) returns (states: set<nat>)
    requires forall v :: v in vs ==> v < MODULUS
    ensures |states| == |vs|
    ensures forall s: nat :: s in states <==> s < MODULUS && Draw(s, 1) in vs
    decreases |vs|
  {
    if vs == {} {
      states := {};
    } else {
      var v :| v in vs;
      var rest := ImageSize(vs - {v});
      states := rest + {StateBefore(v)};
      forall s: nat ensures s in states <==> s < MODULUS && Draw(s, 1) in vs {
        if s < MODULUS { StateBeforeIs(v, s); }
      }
      StateBeforeIs(v, StateBefore(v));
    }
  }

  /** Over all 2^64 generator states, every index is the immediate answer equally often. */
  lemma StatesUnbiased(length: nat, r: nat) returns (states: set<nat>)
    requires 1 <= length <= MODULUS && r < length
    ensures StatesFor(states, length, r) && |states| == Limit(length) / length
  {
    LimitIsLargestMultiple(length, 0);
    Unbiased(length, r);
    states := ImageSize(Preimages(Limit(length), length, r));
  }
}
