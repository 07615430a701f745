/** Machine-width arithmetic shared by the models. */
module Numbers {
  type u8 = x: int | 0 <= x < 256
  type u16 = x: int | 0 <= x < 0x1_0000

  const U64_MAX := 0xFFFF_FFFF_FFFF_FFFF
  const I32_MAX := 0x7FFF_FFFF

  function Min(a: int, b: int): int { if a < b then a else b }

  function Max(a: int, b: int): int { if a < b then b else a }

  function Abs(a: int): int { if a < 0 then -a else a }

  function SatAddU64(a: int, b: int): int { Min(a + b, U64_MAX) }

  function SatAddU16(a: int, b: int): int { Min(a + b, 0xFFFF) }

  function SatAddI32(a: int, b: int): int { Max(-I32_MAX - 1, Min(a + b, I32_MAX)) }

  lemma MulMonotone(a: int, b: int, p: int)
    requires a <= b && p >= 0
    ensures a * p <= b * p
  {
  }

  lemma QuotientBound(a: nat, b: int, k: nat)
    requires b > 0 && a <= k * b
    ensures a / b <= k
  {
    var q := a / b;
    assert a == q * b + a % b;
    if q > k {
      MulMonotone(k + 1, q, b);
    }
  }

  /** Integer division of Rust, which truncates toward zero. */
  function TruncDiv(a: int, b: int): int
    requires b > 0
  {
    if a < 0 then -(-a / b) else a / b
  }

  lemma TruncDivBound(a: int, b: int, k: nat)
    requires b > 0 && Abs(a) <= k * b
    ensures Abs(TruncDiv(a, b)) <= k
  {
    QuotientBound(Abs(a), b, k);
    assert Abs(a) / b >= 0;
  }

  function Pow2(k: nat): (r: nat)
    ensures r >= 1
  {
    if k == 0 then 1 else 2 * Pow2(k - 1)
  }

  /** Logical shift right. */
  function Shr(v: nat, k: nat): (r: nat)
    ensures r <= v
    decreases k
  {
    if k == 0 then v else Shr(v / 2, k - 1)
  }

  /** A shift leaves something exactly when the value reaches the power of two. */
  lemma {:induction false} ShrPositive(v: nat, k: nat)
    ensures Shr(v, k) >= 1 <==> v >= Pow2(k)
    decreases k
  {
    if k > 0 {
      ShrPositive(v / 2, k - 1);
    }
  }

  lemma {:induction false} ShrMonotone(v: nat, w: nat, k: nat)
    requires v <= w
    ensures Shr(v, k) <= Shr(w, k)
    decreases k
  {
    if k > 0 {
      ShrMonotone(v / 2, w / 2, k - 1);
    }
  }

  /** Whether the bit of weight w is set in v. */
  predicate TestBit(v: nat, w: nat)
    requires w > 0
  {
    v / w % 2 == 1
  }

  /** Division is determined by quotient and remainder. */
  lemma DivUnique(p: int, q: int, r: int)
    requires p > 0 && 0 <= r < p
    ensures (q * p + r) / p == q && (q * p + r) % p == r
  {
    var n := q * p + r;
    var m := n / p;
    assert n == m * p + n % p;
    if q > m {
      MulMonotone(m + 1, q, p);
    } else if q < m {
      MulMonotone(q + 1, m, p);
    }
  }

  /** Shifting a dividend by a partial remainder: the carry into the quotient. */
  lemma DivSplit(x: nat, b: nat, p: int)
    requires p > 0
    ensures (x + b) / p == x / p + (x % p + b) / p
    ensures (x + b) % p == (x % p + b) % p
  {
    var y := x % p + b;
    assert x + b == (x / p + y / p) * p + y % p by {
      assert x == (x / p) * p + x % p;
      assert y == (y / p) * p + y % p;
    }
    DivUnique(p, x / p + y / p, y % p);
  }

  lemma DivStep(x: nat, p: int)
    requires 0 < p <= x
    ensures x / p == 1 + (x - p) / p && x % p == (x - p) % p
  {
    DivUnique(p, 1, 0);
    DivSplit(p, x - p, p);
  }
}
