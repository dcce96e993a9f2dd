/** Integer helpers shared by the renderer, the builder and the height mapper:
    powers of two (the `1 << n` shifts), ceiling division, and the integer vectors
    (`UVec3`, and `Vec3` restricted to the integer values it holds here). */
module Math {

  /** An unsigned 3-vector, as `UVec3`. */
  datatype UVec3 = UVec3(x: nat, y: nat, z: nat)

  /** A signed 3-vector; the `Vec3` positions of the source only ever hold integers. */
  datatype Vec3 = Vec3(x: int, y: int, z: int)

  /** `1 << n`. */
  function Pow2(n: nat): (r: nat)
    ensures r >= 1
  {
    if n == 0 then 1 else 2 * Pow2(n - 1)
  }

  lemma {:induction false} Pow2Add(a: nat, b: nat)
    ensures Pow2(a + b) == Pow2(a) * Pow2(b)
  {
    if a > 0 {
      Pow2Add(a - 1, b);
      assert Pow2(a + b) == 2 * Pow2(a - 1 + b);
    }
  }

  lemma {:induction false} Pow2Strict(a: nat, b: nat)
    requires a < b
    ensures Pow2(a) < Pow2(b)
  {
    if a + 1 < b {
      Pow2Strict(a, b - 1);
    }
  }

  lemma MulLe(a: nat, b: nat, d: nat)
    requires a <= b
    ensures a * d <= b * d
  {
  }

  /** A number written with a low digit `lo < base` and high part `hi` determines both:
      they are its quotient and remainder by `base`. */
  lemma DigitsUnique(hi: nat, lo: nat, base: nat)
    requires lo < base
    ensures (hi * base + lo) / base == hi && (hi * base + lo) % base == lo
  {
    var n := hi * base + lo;
    var q, r := n / base, n % base;
    assert q * base + r == n;
    if q < hi {
      MulLe(q + 1, hi, base);
      assert false;
    } else if q > hi {
      MulLe(hi + 1, q, base);
      assert false;
    }
  }

  /** `(n + d - 1) / d`, the number of strided samples of `0..n` with stride `d`. */
  function CeilDiv(n: nat, d: nat): nat
    requires d >= 1
  {
    (n + d - 1) / d
  }

  /** `k` is below the ceiling quotient exactly when the `k`-th stride still lies inside `0..n`. */
  lemma CeilDivBound(n: nat, d: nat, k: nat)
    requires d >= 1
    ensures k < CeilDiv(n, d) <==> k * d < n
  {
    var q := (n + d - 1) / d;
    var r := (n + d - 1) % d;
    assert n + d - 1 == q * d + r;
    if k < q {
      MulLe(k + 1, q, d);
    } else {
      MulLe(q, k, d);
    }
  }

  /** `n < chunks * side` puts `n / side` below `chunks`. */
  lemma QuotientBelow(n: nat, side: nat, chunks: nat)
    requires side >= 1 && n < chunks * side
    ensures n / side < chunks
  {
    if n / side >= chunks {
      MulLe(chunks, n / side, side);
      assert false;
    }
  }

  /** The number `hi · base + lo`: a high digit and a low digit in base `base`. */
  function Mix(hi: nat, base: nat, lo: nat): nat
  {
    hi * base + lo
  }

  /** A low digit below the base keeps the number below `n` bases when the high digit is
      below `n`. */
  lemma MixBelow(hi: nat, base: nat, lo: nat, n: nat)
    requires hi < n && lo < base
    ensures Mix(hi, base, lo) < n * base
  {
    MulLe(hi + 1, n, base);
  }

  /** `k` split into quotient and remainder by `base`. */
  lemma Split(k: nat, base: nat, n: nat)
    requires k < n * base
    ensures base >= 1 && k / base < n && k % base < base && Mix(k / base, base, k % base) == k
  {
    QuotientBelow(k, base, n);
  }
}
