/**
 The exact two-sided binomial p-value of scripts/cache_parity_eval.py, in its inline form
 (`math.comb` at success probability one half), over exact reals.
 */
module Binomial {

  /** `math.comb`, by Pascal's rule. */
  function Choose(n: nat, k: int): nat {
    if k < 0 || k > n then 0
    else if n == 0 then 1
    else Choose(n - 1, k - 1) + Choose(n - 1, k)
  }

  function Pow2(n: nat): nat {
    if n == 0 then 1 else 2 * Pow2(n - 1)
  }

  function Pow(x: real, n: nat): real {
    if n == 0 then 1.0 else x * Pow(x, n - 1)
  }

  /** The number of outcomes of `n` fair coins with at most `k` heads. */
  function Tail(n: nat, k: int): nat
    decreases k
  {
    if k < 0 then 0 else Choose(n, k) + Tail(n, k - 1)
  }

  /** The number of outcomes of `n` fair coins, with at most `upTo` heads, that are at least as
      lopsided as `k` against `n - k`. */
  function Lopsided(n: nat, k: nat, upTo: int): nat
    decreases upTo
  {
    if upTo < 0 then 0
    else (if upTo <= k || n - upTo <= k then Choose(n, upTo) else 0) + Lopsided(n, k, upTo - 1)
  }

  lemma {:induction false} TailPascal(n: nat, k: int)
    ensures Tail(n + 1, k) == Tail(n, k) + Tail(n, k - 1)
    decreases k
  {
    if k >= 0 {
      TailPascal(n, k - 1);
      ChooseOutside(n, k);
    }
  }

  lemma ChooseOutside(n: nat, k: int)
    ensures Choose(n + 1, k) == Choose(n, k - 1) + Choose(n, k)
  {
  }

  lemma {:induction false} TailWhole(n: nat)
    ensures Tail(n, n) == Pow2(n) && Tail(n, -1) == 0
  {
    if n == 0 {
      assert Tail(0, 0) == Choose(0, 0) + Tail(0, -1);
    } else {
      TailWhole(n - 1);
      TailPascal(n - 1, n);
      assert Tail(n - 1, n) == Choose(n - 1, n) + Tail(n - 1, n - 1);
    }
  }

  /** At most `k` heads or at least `k + 1` heads: together, every outcome. */
  lemma {:induction false} TailsComplement(n: nat, k: int)
    requires -1 <= k <= n
    ensures Tail(n, k) + Tail(n, n - 1 - k) == Pow2(n)
    decreases n
  {
    hide Choose;
    if k == -1 || k == n {
      TailWhole(n);
    } else {
      TailPascal(n - 1, k);
      TailPascal(n - 1, n - 1 - k);
      TailsComplement(n - 1, k);
      TailsComplement(n - 1, k - 1);
    }
  }

  lemma {:induction false} TailMonotone(n: nat, j: int, k: int)
    requires j <= k
    ensures Tail(n, j) <= Tail(n, k)
    decreases k - j
  {
    if j < k {
      TailMonotone(n, j, k - 1);
    }
  }

  lemma {:induction false} ChoosePositive(n: nat, k: nat)
    requires k <= n
    ensures Choose(n, k) > 0
  {
    if k < n {
      ChoosePositive(n - 1, k);
    } else if n > 0 {
      ChoosePositive(n - 1, k - 1);
    }
  }

  lemma {:induction false} LopsidedByTails(n: nat, k: nat, upTo: int)
    requires 2 * k < n && -1 <= upTo <= n
    ensures Lopsided(n, k, upTo)
            == if upTo <= k then Tail(n, upTo)
               else if upTo < n - k then Tail(n, k)
               else Tail(n, k) + Tail(n, upTo) - Tail(n, n - k - 1)
    decreases upTo
  {
    if upTo >= 0 {
      LopsidedByTails(n, k, upTo - 1);
    }
  }

  lemma {:induction false} LopsidedAtHalf(n: nat, k: nat, upTo: int)
    requires n == 2 * k
    ensures Lopsided(n, k, upTo) == Tail(n, upTo)
    decreases upTo
  {
    if upTo >= 0 {
      LopsidedAtHalf(n, k, upTo - 1);
    }
  }

  // ---------------------------------------------------------------------------------
  // The source's formula
  // ---------------------------------------------------------------------------------

  const HALF := 0.5

  /** `sum(comb(n, i) * p**i * (1 - p)**(n - i) for i in range(0, k + 1))` at `p = 0.5`. */
  function LowerTail(n: nat, k: int): real
    requires k <= n
    decreases k
  {
    if k < 0 then 0.0
    else LowerTail(n, k - 1) + Choose(n, k) as real * Pow(HALF, k) * Pow(HALF, n - k)
  }

  function TwoSided(k: nat, n: nat): real
    requires k <= n
  {
    if 2.0 * LowerTail(n, k) <= 1.0 then 2.0 * LowerTail(n, k) else 1.0
  }

  /** The p-value for `b` moves one way and `c` the other. */
  function PValue(b: nat, c: nat): real {
    if b + c == 0 then 1.0 else TwoSided(if b <= c then b else c, b + c)
  }

  lemma {:induction false} HalfPowers(i: nat, j: nat)
    ensures Pow(HALF, i) * Pow(HALF, j) == Pow(HALF, i + j)
  {
    if i > 0 {
      HalfPowers(i - 1, j);
    }
  }

  lemma {:induction false} HalfPow2(n: nat)
    ensures Pow(HALF, n) * Pow2(n) as real == 1.0 && Pow(HALF, n) > 0.0
  {
    if n > 0 {
      HalfPow2(n - 1);
      var p, q := Pow(HALF, n - 1), Pow2(n - 1) as real;
      assert (HALF * p) * (2.0 * q) == p * q;
    }
  }

  lemma Associate(a: real, p: real, q: real)
    ensures a * p * q == a * (p * q)
  {
  }

  lemma Distribute(a: real, b: real, p: real)
    ensures (a + b) * p == a * p + b * p
  {
  }

  lemma {:induction false} LowerTailIsTail(n: nat, k: int)
    requires k <= n
    ensures LowerTail(n, k) == Tail(n, k) as real * Pow(HALF, n)
    decreases k
  {
    hide Pow, Choose;
    if k >= 0 {
      LowerTailIsTail(n, k - 1);
      HalfPowers(k, n - k);
      Associate(Choose(n, k) as real, Pow(HALF, k), Pow(HALF, n - k));
      Distribute(Choose(n, k) as real, Tail(n, k - 1) as real, Pow(HALF, n));
    }
  }

  lemma Scale(n: nat, count: nat)
    ensures count as real * Pow(HALF, n) * Pow2(n) as real == count as real
  {
    hide Pow, Pow2;
    HalfPow2(n);
    Associate(count as real, Pow(HALF, n), Pow2(n) as real);
  }

  lemma ScaleCompare(n: nat, a: nat, b: nat)
    ensures a < b <==> a as real * Pow(HALF, n) < b as real * Pow(HALF, n)
    ensures a <= b <==> a as real * Pow(HALF, n) <= b as real * Pow(HALF, n)
  {
    HalfPow2(n);
    var p := Pow(HALF, n);
    assert (b - a) as real * p == b as real * p - a as real * p;
    if a < b { assert (b - a) as real * p > 0.0; }
    if b < a { assert (a - b) as real * p > 0.0; }
  }

  /** Twice the lower tail against the whole space. */
  lemma DoubledTail(n: nat, k: nat)
    requires 2 * k <= n && n > 0
    ensures 2 * k < n ==> 2 * Tail(n, k) <= Pow2(n) && 2 * Tail(n, k) == Lopsided(n, k, n)
    ensures 2 * k == n ==> 2 * Tail(n, k) > Pow2(n) && Pow2(n) == Lopsided(n, k, n)
  {
    TailsComplement(n, k);
    TailsComplement(n, n);
    assert Tail(n, -1) == 0;
    if 2 * k < n {
      TailMonotone(n, k, n - 1 - k);
      LopsidedByTails(n, k, n);
    } else {
      ChoosePositive(n, k);
      LopsidedAtHalf(n, k, n);
    }
  }

  lemma TwoSidedCounts(k: nat, n: nat)
    requires 2 * k <= n && n > 0
    ensures TwoSided(k, n) == Lopsided(n, k, n) as real * Pow(HALF, n)
    ensures 2.0 * LowerTail(n, k) != TwoSided(k, n) <==> 2 * k == n
  {
    hide Pow, Choose, Pow2, LowerTail, Tail, Lopsided;
    LowerTailIsTail(n, k);
    DoubledTail(n, k);
    HalfPow2(n);
    Distribute(Tail(n, k) as real, Tail(n, k) as real, Pow(HALF, n));
    ScaleCompare(n, Pow2(n), 2 * Tail(n, k));
  }

  lemma PValueFromSplit(b: nat, c: nat)
    requires b + c > 0
    ensures PValue(b, c) == TwoSided(if b <= c then b else c, b + c)
    ensures PValue(b, c) == PValue(c, b)
  {
    hide TwoSided;
    assert b + c == c + b;
  }

  lemma NoMoves()
    ensures Pow2(0) == 1 == Lopsided(0, 0, 0)
  {
    assert Lopsided(0, 0, 0) == Choose(0, 0) + Lopsided(0, 0, -1);
  }

  /** What the p-value means: the share of the `2^(b + c)` equally likely outcomes that are at
      least as lopsided as the observed one. */
  lemma PValueIsLopsidedShare(b: nat, c: nat)
    ensures PValue(b, c) * Pow2(b + c) as real
            == Lopsided(b + c, if b <= c then b else c, b + c) as real
  {
    hide Pow, Choose, Pow2, LowerTail, Tail, Lopsided, TwoSided;
    var k := if b <= c then b else c;
    if b + c == 0 {
      NoMoves();
    } else {
      PValueFromSplit(b, c);
      TwoSidedCounts(k, b + c);
      Scale(b + c, Lopsided(b + c, k, b + c));
    }
  }

  /** The clamp to one takes effect exactly on a tie. */
  lemma ClampExactlyOnTies(b: nat, c: nat)
    requires b + c > 0
    ensures var k := if b <= c then b else c;
            2.0 * LowerTail(b + c, k) != PValue(b, c) <==> b == c
  {
    TwoSidedCounts(if b <= c then b else c, b + c);
  }

  lemma TailPositive(n: nat, k: nat)
    requires k <= n
    ensures Tail(n, k) > 0
  {
    ChoosePositive(n, k);
  }

  /** A p-value lies in (0, 1] and does not depend on which way is called which. */
  lemma PValueRange(b: nat, c: nat)
    ensures 0.0 < PValue(b, c) <= 1.0
    ensures PValue(b, c) == PValue(c, b)
  {
    hide Pow, Choose, LowerTail, Tail;
    if b + c > 0 {
      PValueFromSplit(b, c);
      var k := if b <= c then b else c;
      TailPositive(b + c, k);
      LowerTailIsTail(b + c, k);
      ScaleCompare(b + c, 0, Tail(b + c, k));
    }
  }

  lemma {:induction false} LowerTailMonotone(n: nat, j: nat, k: nat)
    requires j <= k <= n
    ensures LowerTail(n, j) <= LowerTail(n, k)
    decreases k
  {
    hide Pow, Choose;
    if j < k {
      LowerTailMonotone(n, j, k - 1);
      HalfPowers(k, n - k);
      HalfPow2(n);
      Associate(Choose(n, k) as real, Pow(HALF, k), Pow(HALF, n - k));
      NonNegative(Choose(n, k) as real, Pow(HALF, n));
    }
  }

  lemma NonNegative(a: real, p: real)
    requires a >= 0.0 && p >= 0.0
    ensures a * p >= 0.0
  {
  }

  /** For a fixed number of moves, a more even split never has a smaller p-value. */
  lemma PValueMonotone(b: nat, c: nat, b': nat, c': nat)
    requires b + c == b' + c'
    requires (if b <= c then b else c) <= (if b' <= c' then b' else c')
    ensures PValue(b, c) <= PValue(b', c')
  {
    hide Pow, Choose, LowerTail, Tail;
    var n := b + c;
    var k := if b <= c then b else c;
    var k' := if b' <= c' then b' else c';
    if n > 0 {
      PValueFromSplit(b, c);
      PValueFromSplit(b', c');
    }
    LowerTailMonotone(n, k, k');
  }

  /** When every move goes the same way the p-value is `2^(1 - n)`. */
  lemma PValueOneWay(n: nat)
    requires n > 0
    ensures PValue(0, n) * Pow2(n - 1) as real == 1.0
  {
    PValueIsLopsidedShare(0, n);
    DoubledTail(n, 0);
    assert Tail(n, 0) == Choose(n, 0) + Tail(n, -1);
    ChooseNone(n);
    var p, q := PValue(0, n), Pow2(n - 1) as real;
    assert p * (2.0 * q) == 2.0 * (p * q);
  }

  lemma {:induction false} ChooseNone(n: nat)
    ensures Choose(n, 0) == 1
  {
    if n > 0 {
      ChooseNone(n - 1);
    }
  }

  lemma {:induction false} Pow2Grows(m: nat, n: nat)
    requires m <= n
    ensures Pow2(m) <= Pow2(n)
    decreases n
  {
    if m < n {
      Pow2Grows(m, n - 1);
    }
  }

  /** One-way drift is significant at 5% from the sixth move on. */
  lemma OneWaySignificance(n: nat)
    ensures PValue(0, n) <= 0.05 <==> n >= 6
  {
    if n > 0 {
      PValueOneWay(n);
      assert Pow2(4) == 16 && Pow2(5) == 32;
      if n >= 6 {
        Pow2Grows(5, n - 1);
      } else {
        Pow2Grows(n - 1, 4);
      }
      InverseCompare(PValue(0, n), Pow2(n - 1) as real);
    }
  }

  lemma InverseCompare(p: real, q: real)
    requires p * q == 1.0 && q > 0.0
    ensures q >= 20.0 <==> p <= 0.05
  {
    assert (p - 0.05) * q == 1.0 - 0.05 * q;
  }

  /** No split of fewer than six moves is significant at 5%. */
  lemma SignificanceNeedsSix(b: nat, c: nat)
    requires PValue(b, c) <= 0.05
    ensures b + c >= 6
  {
    PValueMonotone(0, b + c, b, c);
    OneWaySignificance(b + c);
  }
}
