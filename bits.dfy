/**
 * Python's `&` with a non-negative mask, on integers of any sign (two's
 * complement with unbounded width), defined bit by bit.
 */
module Bits {
  function Pow2(k: nat): (p: nat)
    ensures p >= 1
  {
    if k == 0 then 1 else 2 * Pow2(k - 1)
  }

  /**
   * `a & b`: the lowest bit is set iff it is set in both, and the rest is
   * the AND of the shifted values. `/` and `%` by 2 floor, so a negative `a`
   * keeps its infinite run of leading ones, as in Python.
   */
  function BitAnd(a: int, b: nat): (r: nat)
    decreases b
  {
    if b == 0 then 0
    else 2 * BitAnd(a / 2, b / 2) + (if a % 2 == 1 && b % 2 == 1 then 1 else 0)
  }

  lemma MulAtLeast(m: int, d: int)
    requires m >= 1 && d >= 1
    ensures m * d >= m
  {
    assert m * d == m * (d - 1) + m;
    assert m * (d - 1) >= 0;
  }

  /** The remainder is determined by any quotient-and-remainder split. */
  lemma ModUnique(a: int, m: int, q: int, r: int)
    requires m >= 1 && a == m * q + r && 0 <= r < m
    ensures a % m == r
  {
    var q', r' := a / m, a % m;
    assert m * (q - q') == r' - r;
    if q > q' {
      MulAtLeast(m, q - q');
    } else if q < q' {
      MulAtLeast(m, q' - q);
    }
  }

  /** The remainder by `2p` is twice the remainder of the halved value by `p`, plus the low bit. */
  lemma ModDouble(a: int, p: nat)
    requires p >= 1
    ensures a % (2 * p) == 2 * ((a / 2) % p) + a % 2
  {
    var q := a / 2;
    var r := 2 * (q % p) + a % 2;
    assert q == p * (q / p) + q % p;
    assert a == 2 * q + a % 2;
    assert a == (2 * p) * (q / p) + r;
    ModUnique(a, 2 * p, q / p, r);
  }

  /** Masking with `k` ones keeps the value modulo `2^k`. */
  lemma {:induction false} LowBits(a: int, k: nat)
    ensures BitAnd(a, Pow2(k) - 1) == a % Pow2(k)
    decreases k
  {
    if k > 0 {
      var p := Pow2(k - 1);
      var m := Pow2(k) - 1;
      assert m == 2 * (p - 1) + 1;
      assert m / 2 == p - 1 && m % 2 == 1;
      LowBits(a / 2, k - 1);
      ModDouble(a, p);
    }
  }

  lemma Pow2Eight()
    ensures Pow2(8) - 1 == 0xFF
  {
    assert Pow2(4) == 16;
  }

  /** `a & 0xFF` is `a` modulo 256, for every integer `a`. */
  lemma LowByte(a: int)
    ensures BitAnd(a, 0xFF) == a % 256
  {
    Pow2Eight();
    LowBits(a, 8);
  }
}
