/** Powers of two, division by a number that isn't a constant, and counting
    round a ring. */
module Arith {
  const U32: nat := 0x1_0000_0000
  const U64: nat := 0x1_0000_0000_0000_0000

  function Pow2(k: nat): (n: nat)
    ensures n > 0
  {
    if k == 0 then 1 else 2 * Pow2(k - 1)
  }

  lemma {:induction false} Pow2Add(a: nat, b: nat)
    ensures Pow2(a + b) == Pow2(a) * Pow2(b)
  {
    if b > 0 {
      Pow2Add(a, b - 1);
      assert Pow2(a + b) == 2 * Pow2(a + b - 1) == 2 * (Pow2(a) * Pow2(b - 1)) == Pow2(a) * (2 * Pow2(b - 1));
    }
  }

  lemma {:induction false} Pow2Word()
    ensures Pow2(32) == U32
  {
    assert Pow2(2) == 4;
    Pow2Add(2, 2);
    Pow2Add(4, 4);
    Pow2Add(8, 8);
    Pow2Add(16, 16);
  }

  lemma {:induction false} Pow2Monotone(a: nat, b: nat)
    requires a <= b
    ensures Pow2(a) <= Pow2(b)
  {
    if a < b {
      Pow2Monotone(a, b - 1);
    }
  }

  lemma {:induction false} MulMonotone(a: int, b: int, d: nat)
    requires a <= b
    ensures a * d <= b * d
  {
  }

  /** Quotient and remainder, by repeated subtraction: the solver then never
      divides by a variable. */
  function Quot(n: nat, d: nat): (q: nat)
    requires d > 0
  {
    if n < d then 0 else 1 + Quot(n - d, d)
  }

  function Rem(n: nat, d: nat): (r: nat)
    requires d > 0
    ensures r < d
  {
    if n < d then n else Rem(n - d, d)
  }

  lemma {:induction false} OneMore(n: nat, d: nat)
    ensures (1 + n) * d == d + n * d
  {
  }

  lemma {:induction false} ModAdd(x: nat, y: nat)
    ensures (x % U64 + y) % U64 == (x + y) % U64
  {
  }

  lemma {:induction false} QuotRem(n: nat, d: nat)
    requires d > 0
    ensures n == Quot(n, d) * d + Rem(n, d)
    ensures Quot(n, d) == n / d && Rem(n, d) == n % d
  {
    QuotProduct(n, d);
    DivUnique(n, d, Quot(n, d), Rem(n, d));
  }

  lemma {:induction false} QuotProduct(n: nat, d: nat)
    requires d > 0
    ensures n == Quot(n, d) * d + Rem(n, d)
  {
    if n >= d {
      QuotProduct(n - d, d);
      OneMore(Quot(n - d, d), d);
    }
  }

  lemma {:induction false} DivUnique(n: nat, d: nat, q: nat, r: nat)
    requires d > 0 && n == q * d + r && r < d
    ensures n / d == q && n % d == r
  {
    var q' := n / d;
    assert n == q' * d + n % d;
    if q' < q {
      MulGap(q', q, d);
    } else if q < q' {
      MulGap(q, q', d);
    }
  }

  lemma {:induction false} MulGap(a: nat, b: nat, d: nat)
    requires a < b
    ensures a * d + d <= b * d
  {
    OneMore(a, d);
    MulMonotone(a + 1, b, d);
  }

  /** i further on. */
  lemma {:induction false} QuotAdd(n: nat, d: nat, i: nat)
    requires d > 0
    ensures var s := Rem(n, d) + i;
      Quot(n + i, d) == Quot(n, d) + Quot(s, d) && Rem(n + i, d) == Rem(s, d)
  {
    if n >= d {
      QuotAdd(n - d, d, i);
      assert n + i - d == n - d + i;
    }
  }

  lemma {:induction false} QuotBound(n: nat, d: nat, q: nat)
    requires d > 0 && n < d + q * d
    ensures Quot(n, d) <= q
  {
    QuotProduct(n, d);
    if Quot(n, d) > q {
      MulGap(q, Quot(n, d), d);
    }
  }

  lemma {:induction false} SmallMod(x: nat)
    requires x < U64
    ensures x % U64 == x
  {
  }

  /** A whole number of d's more leaves the same remainder. */
  lemma {:induction false} RemMultiple(q: nat, d: nat, r: nat)
    requires d > 0
    ensures Rem(q * d + r, d) == Rem(r, d)
  {
    if q > 0 {
      OneMore(q - 1, d);
      RemMultiple(q - 1, d, r);
      assert q * d + r == d + ((q - 1) * d + r);
    }
  }

  /** A counter that wraps at 2^32 has the remainder by d that the true count
      has, if d divides 2^32. */
  lemma {:induction false} RemWrap(x: nat, d: nat, c: nat)
    requires d > 0 && U32 == c * d
    ensures Rem(x % U32, d) == Rem(x, d)
  {
    var q := x / U32;
    assert x == q * U32 + x % U32;
    assert q * U32 == (q * c) * d;
    RemMultiple(q * c, d, x % U32);
  }

  /** Counts less than d apart have different remainders. */
  lemma {:induction false} RemApart(i: nat, j: nat, d: nat)
    requires d > 0 && i < j < i + d
    ensures Rem(i, d) != Rem(j, d)
  {
    QuotAdd(i, d, j - i);
  }

  // ---------------------------------------------------------------------
  // Counting round a ring
  // ---------------------------------------------------------------------

  lemma {:induction false} Succ(k: nat, d: nat)
    requires d > 0
    ensures Rem(k + 1, d) == (if Rem(k, d) + 1 == d then 0 else Rem(k, d) + 1)
    ensures Quot(k + 1, d) == Quot(k, d) + (if Rem(k, d) + 1 == d then 1 else 0)
  {
    QuotAdd(k, d, 1);
  }

  /** A ring's depth is a power of two, and at most 2^24. */
  predicate DepthOk(depth: nat) {
    exists k :: 0 <= k <= 24 && depth == Pow2(k)
  }

  lemma {:induction false} DepthDivides(depth: nat) returns (c: nat)
    requires DepthOk(depth)
    ensures 0 < depth < U32 && U32 == c * depth
  {
    var k :| 0 <= k <= 24 && depth == Pow2(k);
    Pow2Add(32 - k, k);
    Pow2Word();
    Pow2Monotone(k, 31);
    c := Pow2(32 - k);
  }

  lemma {:induction false} SameSlot(x: nat, depth: nat)
    requires DepthOk(depth)
    ensures 0 < depth < U32 && Rem(x % U32, depth) == Rem(x, depth)
  {
    var c := DepthDivides(depth);
    RemWrap(x, depth, c);
  }

  lemma {:induction false} WrapAdd(p: nat, n: nat)
    ensures (p % U32 + n) % U32 == (p + n) % U32
  {
  }
}
