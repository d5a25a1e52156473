/**
 The SplitMix64 generator and its rejection sampler, which make the benchmark's bootstrap
 samples reproducible. As in the source, words are integers that are masked to 64 bits
 after every sum and product; exclusive or and right shift are defined on the bits.
 */
module SplitMix {
  import opened Division

  const MODULUS: nat := 0x1_0000_0000_0000_0000

  type Word = w: nat | w < 0x1_0000_0000_0000_0000

  // --- Bits ---------------------------------------------------------------------------------

  function Xor(a: nat, b: nat): nat
    decreases a + b
  {
    if a == 0 then b else if b == 0 then a
    else 2 * Xor(a / 2, b / 2) + (if a % 2 != b % 2 then 1 else 0)
  }

  /** `a >> k`. */
  function Shift(a: nat, k: nat): nat { if k == 0 then a else Shift(a / 2, k - 1) }

  function Power2(n: nat): (p: nat)
    ensures p > 0
  {
    if n == 0 then 1 else 2 * Power2(n - 1)
  }

  lemma {:induction false} ShiftDivides(a: nat, k: nat)
    ensures Shift(a, k) == a / Power2(k)
  {
    if k > 0 {
      ShiftDivides(a / 2, k - 1);
      HalfQuotient(a, Power2(k - 1));
    }
  }

  lemma HalfQuotient(a: nat, p: nat)
    requires p > 0
    ensures a / 2 / p == a / (2 * p)
  {
    var h := a / 2;
    var q, r := h / p, h % p;
    assert h == q * p + r;
    assert q * (2 * p) == 2 * (q * p);
    Remainder(a, 2 * p, q, 2 * r + a % 2);
  }

  /** The bits of an exclusive or. */
  lemma XorBits(a: nat, b: nat)
    ensures Xor(a, b) / 2 == Xor(a / 2, b / 2)
    ensures Xor(a, b) % 2 == if a % 2 != b % 2 then 1 else 0
  {}

  /** A number is known by its bits. */
  lemma SameBits(a: nat, b: nat)
    requires a / 2 == b / 2 && a % 2 == b % 2
    ensures a == b
  {}

  lemma {:induction false} XorAssociates(a: nat, b: nat, c: nat)
    ensures Xor(Xor(a, b), c) == Xor(a, Xor(b, c))
    decreases a + b + c
  {
    if a > 0 && b > 0 && c > 0 {
      XorAssociates(a / 2, b / 2, c / 2);
      XorBits(a, b); XorBits(b, c);
      XorBits(Xor(a, b), c); XorBits(a, Xor(b, c));
      SameBits(Xor(Xor(a, b), c), Xor(a, Xor(b, c)));
    }
  }

  lemma {:induction false} XorCancels(a: nat)
    ensures Xor(a, a) == 0
  {
    if a > 0 { XorCancels(a / 2); }
  }

  lemma {:induction false} XorBelow(a: nat, b: nat, n: nat)
    requires a < Power2(n) && b < Power2(n)
    ensures Xor(a, b) < Power2(n)
  {
    if a > 0 && b > 0 { XorBelow(a / 2, b / 2, n - 1); }
  }

  lemma {:induction false} ShiftXor(a: nat, b: nat, k: nat)
    ensures Shift(Xor(a, b), k) == Xor(Shift(a, k), Shift(b, k))
    decreases k
  {
    if k > 0 {
      XorBits(a, b);
      ShiftXor(a / 2, b / 2, k - 1);
    }
  }

  lemma {:induction false} ShiftShift(a: nat, j: nat, k: nat)
    ensures Shift(Shift(a, j), k) == Shift(a, j + k)
    decreases j
  {
    if j > 0 { ShiftShift(a / 2, j - 1, k); }
  }

  lemma {:induction false} ShiftOut(a: nat, n: nat, k: nat)
    requires a < Power2(n) && n <= k
    ensures Shift(a, k) == 0
    decreases k
  {
    if k > 0 {
      if n > 0 { ShiftOut(a / 2, n - 1, k - 1); } else { ShiftOut(a / 2, n, k - 1); }
    }
  }

  lemma {:induction false} ShiftBelow(a: nat, k: nat)
    ensures Shift(a, k) <= a
    decreases k
  {
    if k > 0 { ShiftBelow(a / 2, k - 1); }
  }

  // --- The output mix -----------------------------------------------------------------------

  lemma WordBits()
    ensures Power2(64) == MODULUS
  {
    assert Power2(4) == 16;
    PowerAdds(4, 4);
    assert Power2(8) == 0x100;
    PowerAdds(8, 8);
    assert Power2(16) == 0x1_0000;
    PowerAdds(16, 16);
    assert Power2(32) == 0x1_0000_0000;
    PowerAdds(32, 32);
  }

  lemma {:induction false} PowerAdds(a: nat, b: nat)
    ensures Power2(a + b) == Power2(a) * Power2(b)
  {
    if b > 0 {
      PowerAdds(a, b - 1);
      assert Power2(a) * (2 * Power2(b - 1)) == 2 * (Power2(a) * Power2(b - 1));
    }
  }

  function Scramble(v: Word, k: nat): (r: Word) {
    var r := Xor(v, Shift(v, k));
    assert r < MODULUS by { WordBits(); ShiftBelow(v, k); XorBelow(v, Shift(v, k), 64); }
    r
  }

  function Unscramble(v: Word, k: nat): (r: Word) {
    var r := Xor(Xor(v, Shift(v, k)), Shift(v, k + k));
    assert r < MODULUS by {
      WordBits(); ShiftBelow(v, k); ShiftBelow(v, k + k);
      XorBelow(v, Shift(v, k), 64); XorBelow(Xor(v, Shift(v, k)), Shift(v, k + k), 64);
    }
    r
  }

  /** A xor-shift by a third of the word or more is undone by the two shifted copies. */
  lemma ScrambleInverse(v: Word, k: nat)
    requires 3 * k >= 64
    ensures Unscramble(Scramble(v, k), k) == v
    ensures Scramble(Unscramble(v, k), k) == v
  {
    var a, b, c := Shift(v, k), Shift(v, k + k), Shift(v, k + k + k);
    assert c == 0 by { WordBits(); ShiftOut(v, 64, k + k + k); }
    ShiftShift(v, k, k); ShiftShift(v, k, k + k); ShiftShift(v, k + k, k);
    var y := Scramble(v, k);
    ShiftXor(v, a, k); ShiftXor(v, a, k + k);
    assert Shift(y, k) == Xor(a, b) && Shift(y, k + k) == Xor(b, 0);
    Telescope(v, a, b);
    var x := Unscramble(v, k);
    ShiftXor(Xor(v, a), b, k);
    assert Shift(x, k) == Xor(Xor(a, b), 0);
    Telescope2(v, a, b);
  }

  lemma Telescope(v: nat, a: nat, b: nat)
    ensures Xor(Xor(Xor(v, a), Xor(a, b)), b) == v
  {
    XorAssociates(v, a, Xor(a, b));
    XorAssociates(a, a, b); XorCancels(a);
    XorAssociates(v, b, b); XorCancels(b);
  }

  lemma Telescope2(v: nat, a: nat, b: nat)
    ensures Xor(Xor(Xor(v, a), b), Xor(a, b)) == v
  {
    XorAssociates(v, a, b);
    XorAssociates(v, Xor(a, b), Xor(a, b));
    XorCancels(Xor(a, b));
  }

  /** Multiplying by a factor and by its inverse modulo 2^64 gives the word back. */
  lemma TimesInverse(v: Word, c: nat, d: nat, q: nat)
    requires c * d == q * MODULUS + 1
    ensures (v * c % MODULUS) * d % MODULUS == v
  {
    var t := v * c / MODULUS;
    var w := v * c % MODULUS;
    assert w == v * c - t * MODULUS;
    calc {
      w * d;
      v * c * d - t * MODULUS * d;
      { assert v * c * d == v * (c * d); }
      v * (q * MODULUS + 1) - t * MODULUS * d;
      { assert v * (q * MODULUS + 1) == v * q * MODULUS + v; assert t * MODULUS * d == t * d * MODULUS; }
      v * q * MODULUS + v - t * d * MODULUS;
      { assert (v * q - t * d) * MODULUS == v * q * MODULUS - t * d * MODULUS; }
      (v * q - t * d) * MODULUS + v;
    }
    Remainder(w * d, MODULUS, v * q - t * d, v);
  }

  // The two factors of the mix and, below, their inverses.
  function TimesA(v: Word): Word { v * 0xBF58_476D_1CE4_E5B9 % 0x1_0000_0000_0000_0000 }
  function TimesB(v: Word): Word { v * 0x94D0_49BB_1331_11EB % 0x1_0000_0000_0000_0000 }
  function OverA(v: Word): Word { v * 0x96DE_1B17_3F11_9089 % 0x1_0000_0000_0000_0000 }
  function OverB(v: Word): Word { v * 0x3196_42B2_D24D_8EC3 % 0x1_0000_0000_0000_0000 }

  lemma FactorA(v: Word)
    ensures OverA(TimesA(v)) == v && TimesA(OverA(v)) == v
  {
    var c, d := 0xBF58_476D_1CE4_E5B9, 0x96DE_1B17_3F11_9089;
    TimesInverse(v, c, d, c * d / MODULUS);
    TimesInverse(v, d, c, c * d / MODULUS);
  }

  lemma FactorB(v: Word)
    ensures OverB(TimesB(v)) == v && TimesB(OverB(v)) == v
  {
    var c, d := 0x94D0_49BB_1331_11EB, 0x3196_42B2_D24D_8EC3;
    TimesInverse(v, c, d, c * d / MODULUS);
    TimesInverse(v, d, c, c * d / MODULUS);
  }

  function Mix(state: Word): Word {
    Scramble(TimesB(Scramble(TimesA(Scramble(state, 30)), 27)), 31)
  }

  function Unmix(draw: Word): Word {
    Unscramble(OverA(Unscramble(OverB(Unscramble(draw, 31)), 27)), 30)
  }

  /** The mix is a bijection on 64-bit words. */
  lemma MixBijective(word: Word)
    ensures Unmix(Mix(word)) == word
    ensures Mix(Unmix(word)) == word
  {
    var a := Scramble(word, 30);
    var b := Scramble(TimesA(a), 27);
    ScrambleInverse(TimesB(b), 31); FactorB(b);
    ScrambleInverse(TimesA(a), 27); FactorA(a); ScrambleInverse(word, 30);
    var c := Unscramble(word, 31);
    var d := Unscramble(OverB(c), 27);
    ScrambleInverse(OverA(d), 30); FactorA(d);
    ScrambleInverse(OverB(c), 27); FactorB(c); ScrambleInverse(word, 31);
  }

  lemma MixInjective(x: Word, y: Word)
    requires Mix(x) == Mix(y)
    ensures x == y
  {
    MixBijective(x);
    MixBijective(y);
  }

  // --- The walk through the states ----------------------------------------------------------

  const INCREMENT: nat := 0x9E37_79B9_7F4A_7C15
  const INVERSE: nat := 0xF1DE_83E1_9937_733D

  /** The state after `n` draws. */
  function StateAfter(state: Word, n: nat): Word {
    (state + n * 0x9E37_79B9_7F4A_7C15) % 0x1_0000_0000_0000_0000
  }

  /** The n-th draw from `state`, counting from one. */
  function Draw(state: Word, n: nat): Word { Mix(StateAfter(state, n)) }

  /** Any 2^64 consecutive draws from any state are pairwise distinct. */
  lemma DrawsDistinct(state: Word, i: nat, j: nat)
    requires i <= j < i + MODULUS && Draw(state, i) == Draw(state, j)
    ensures i == j
  {
    MixInjective(StateAfter(state, i), StateAfter(state, j));
    SameState(state + i * INCREMENT, state + j * INCREMENT, j - i);
  }

  lemma SameState(x: nat, y: nat, n: nat)
    requires x % MODULUS == y % MODULUS && y == x + n * INCREMENT && n < MODULUS
    ensures n == 0
  {
    var q := y / MODULUS - x / MODULUS;
    assert n * INCREMENT == q * MODULUS;
    NoReturn(n, q);
  }

  /** The increment is odd, so a multiple of it vanishes modulo 2^64 only after 2^64 steps. */
  lemma NoReturn(n: nat, q: int)
    requires n * INCREMENT == q * MODULUS && n < MODULUS
    ensures n == 0
  {
    var r := INCREMENT * INVERSE / MODULUS;
    assert INCREMENT * INVERSE == r * MODULUS + 1;
    calc {
      n + n * r * MODULUS;
      { assert n * (r * MODULUS + 1) == n * r * MODULUS + n; }
      n * (r * MODULUS + 1);
      n * INCREMENT * INVERSE;
      q * MODULUS * INVERSE;
      { assert q * MODULUS * INVERSE == q * INVERSE * MODULUS; }
      q * INVERSE * MODULUS;
    }
    assert n == (q * INVERSE - n * r) * MODULUS by {
      assert (q * INVERSE - n * r) * MODULUS == q * INVERSE * MODULUS - n * r * MODULUS;
    }
    Remainder(n, MODULUS, q * INVERSE - n * r, 0);
  }

  /** One more draw moves the state by one increment. */
  lemma StateAfterNext(state: Word, n: nat)
    ensures StateAfter(state, n + 1) == (StateAfter(state, n) + INCREMENT) % MODULUS
  {
    var s := state + n * INCREMENT;
    assert state + (n + 1) * INCREMENT == s + INCREMENT;
    var q, t := s / MODULUS, (s % MODULUS + INCREMENT) / MODULUS;
    Remainder(s + INCREMENT, MODULUS, q + t, (s % MODULUS + INCREMENT) % MODULUS);
  }

  // --- The draw as published ----------------------------------------------------------------

  lemma Powers()
    ensures Power2(27) == 0x800_0000 && Power2(30) == 0x4000_0000 && Power2(31) == 0x8000_0000
  {
    assert Power2(9) == 0x200 && Power2(3) == 8 && Power2(1) == 2;
    PowerAdds(9, 9); PowerAdds(18, 9); PowerAdds(27, 3); PowerAdds(30, 1);
  }

  /** One draw: the state moves by the golden ratio of 2^64; then three exclusive ors, each with the word
      divided by 2^30, 2^27 and 2^31, and two multiplications between them. */
  lemma DrawIs(state: Word)
    ensures var s := (state + 0x9E37_79B9_7F4A_7C15) % 0x1_0000_0000_0000_0000;
            var a := Xor(s, s / 0x4000_0000) * 0xBF58_476D_1CE4_E5B9 % 0x1_0000_0000_0000_0000;
            var b := Xor(a, a / 0x800_0000) * 0x94D0_49BB_1331_11EB % 0x1_0000_0000_0000_0000;
            StateAfter(state, 1) == s && Draw(state, 1) == Xor(b, b / 0x8000_0000)
  {
    Powers();
    var s := StateAfter(state, 1);
    ShiftDivides(s, 30);
    var a := TimesA(Scramble(s, 30));
    ShiftDivides(a, 27);
    var b := TimesB(Scramble(a, 27));
    ShiftDivides(b, 31);
  }
}
