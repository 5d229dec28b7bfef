/** Powers of two and Python's `&` on non-negative integers. */
module Bits {

  /** Two to the n, sixteen doublings at a time. */
  function Pow2(n: nat): (r: nat)
    ensures r >= 1
  {
    if n >= 16 then 0x1_0000 * Pow2(n - 16) else if n == 0 then 1 else 2 * Pow2(n - 1)
  }

  lemma {:induction false} Doubles(n: nat)
    requires n >= 1
    ensures Pow2(n) == 2 * Pow2(n - 1)
  {
    if n >= 17 {
      Doubles(n - 16);
    } else if n == 16 {
      assert Pow2(15) == 0x8000;
    }
  }

  function BitAnd(a: nat, b: nat): nat {
    if a == 0 || b == 0 then 0 else (a % 2) * (b % 2) + 2 * BitAnd(a / 2, b / 2)
  }

  lemma HalfOfRemainder(a: nat, m: nat)
    requires m >= 1
    ensures a % (2 * m) == a % 2 + 2 * ((a / 2) % m)
  {
    var q, r := (a / 2) / m, (a / 2) % m;
    var low := a % 2 + 2 * r;
    assert a == (2 * m) * q + low by {
      assert a / 2 == m * q + r;
      assert 2 * (m * q) == (2 * m) * q;
    }
    RemainderIsUnique(a, 2 * m, q, low);
  }

  lemma RemainderIsUnique(a: nat, m: nat, q: nat, r: nat)
    requires r < m && a == m * q + r
    ensures a % m == r
  {
    var other := a / m;
    assert a == m * other + a % m;
    if q > other {
      AtLeastOnce(m, q, other);
    } else if q < other {
      AtLeastOnce(m, other, q);
    }
  }

  lemma AtLeastOnce(m: nat, more: int, fewer: int)
    requires more > fewer
    ensures m * more >= m * fewer + m
  {
    var d := more - fewer - 1;
    assert more == fewer + 1 + d;
    assert m * more == m * fewer + m + m * d;
    Product(m, d);
  }

  lemma Product(m: nat, d: nat)
    ensures m * d >= 0
  {
  }

  lemma {:induction false} PowGrows(k: nat, w: nat)
    requires k <= w
    ensures Pow2(k) <= Pow2(w)
  {
    if k < w {
      PowGrows(k, w - 1);
      Doubles(w);
    }
  }

  /** A power of two, whatever its exponent. */
  predicate IsPower(p: nat) {
    p == 1 || (p > 0 && p % 2 == 0 && IsPower(p / 2))
  }

  lemma {:induction false} Pow2IsPower(n: nat)
    ensures IsPower(Pow2(n))
  {
    if n > 0 {
      Pow2IsPower(n - 1);
      Doubles(n);
    }
  }

  /** With every mask bit set the address comes back. */
  lemma {:induction false} AllOnes(a: nat, whole: nat)
    requires IsPower(whole) && a < whole
    ensures BitAnd(a, whole - 1) == a
  {
    if whole > 1 && a > 0 {
      AllOnes(a / 2, whole / 2);
      assert (whole - 1) / 2 == whole / 2 - 1 && (whole - 1) % 2 == 1;
    }
  }

  lemma {:induction false} Masked(a: nat, whole: nat, size: nat)
    requires IsPower(whole) && IsPower(size) && a < whole && 1 <= size <= whole
    ensures BitAnd(a, whole - size) == a - a % size
  {
    if size == 1 {
      AllOnes(a, whole);
    } else {
      Masked(a / 2, whole / 2, size / 2);
      MaskTwice(a, whole / 2, size / 2, whole, size);
    }
  }

  /** Masking with `w - k` leading ones clears the last `k` bits and keeps the others. */
  lemma MaskClearsLowBits(a: nat, w: nat, k: nat)
    requires k <= w && a < Pow2(w)
    ensures Pow2(k) <= Pow2(w) && BitAnd(a, Pow2(w) - Pow2(k)) == a - a % Pow2(k)
  {
    PowGrows(k, w);
    Pow2IsPower(w);
    Pow2IsPower(k);
    Masked(a, Pow2(w), Pow2(k));
  }

  /** One more zero at the end of the mask. */
  lemma MaskTwice(a: nat, whole: nat, size: nat, whole': nat, size': nat)
    requires whole' == 2 * whole && size' == 2 * size
    requires 1 <= size <= whole && BitAnd(a / 2, whole - size) == a / 2 - (a / 2) % size
    ensures BitAnd(a, whole' - size') == a - a % size'
  {
    var half, low := whole - size, (a / 2) % size;
    EvenMask(a, half);
    HalfOfRemainder(a, size);
    Halves(a, low, a % (2 * size), BitAnd(a / 2, half), BitAnd(a, 2 * half));
  }

  lemma Halves(a: nat, low: nat, rest: nat, masked: int, twice: int)
    requires rest == a % 2 + 2 * low && masked == a / 2 - low && twice == 2 * masked
    ensures twice == a - rest
  {
  }

  lemma EvenMask(a: nat, half: nat)
    ensures BitAnd(a, 2 * half) == 2 * BitAnd(a / 2, half)
  {
    assert (2 * half) / 2 == half && (2 * half) % 2 == 0;
  }

  lemma RoundingDownIsAnInterval(a: nat, base: nat, m: nat)
    requires m >= 1 && base % m == 0
    ensures a - a % m == base <==> base <= a < base + m
  {
    if base <= a < base + m {
      assert base == m * (base / m);
      RemainderIsUnique(a, m, base / m, a - base);
    }
  }

  /** Masking to a prefix gives `base` exactly on the run of addresses that starts there. */
  lemma MaskedIsAnInterval(a: nat, base: nat, w: nat, k: nat)
    requires k <= w && a < Pow2(w) && base % Pow2(k) == 0
    ensures Pow2(k) <= Pow2(w)
    ensures BitAnd(a, Pow2(w) - Pow2(k)) == base <==> base <= a < base + Pow2(k)
  {
    MaskClearsLowBits(a, w, k);
    RoundingDownIsAnInterval(a, base, Pow2(k));
  }
}
