/** Unsigned machine words as integers: exclusive or, shifts, rotations and multiplication, with
    their inverses. Widths appear as the modulus 2^n. */
module Bits {
  function Pow2(n: nat): (p: nat)
    ensures p > 0
  {
    if n == 0 then 1 else 2 * Pow2(n - 1)
  }

  lemma {:induction false} Pow2Of4()
    ensures Pow2(4) == 16
  {
    assert Pow2(2) == 4;
  }

  lemma {:induction false} Pow2Sum(a: nat, b: nat)
    ensures Pow2(a) * Pow2(b) == Pow2(a + b)
  {
    if a > 0 {
      Pow2Sum(a - 1, b);
      assert Pow2(a) * Pow2(b) == 2 * (Pow2(a - 1) * Pow2(b));
    }
  }

  /** Division is determined by its remainder. */
  lemma {:induction false} DivUnique(x: int, d: int, q: int, r: int)
    requires d > 0 && x == d * q + r && 0 <= r < d
    ensures x / d == q && x % d == r
  {
    var e := x / d - q;
    assert x == d * (x / d) + x % d;
    assert d * e == r - x % d by { assert d * (x / d) - d * q == d * e; }
    assert e >= 1 ==> d * e >= d;
    assert e <= -1 ==> d * e <= -d;
  }

  // ----- Exclusive or -----

  /** Bitwise exclusive or. */
  function Xor(x: nat, y: nat): nat {
    if x == 0 && y == 0 then 0 else (x + y) % 2 + 2 * Xor(x / 2, y / 2)
  }

  lemma {:induction false} XorParts(x: nat, y: nat)
    ensures Xor(x, y) / 2 == Xor(x / 2, y / 2) && Xor(x, y) % 2 == (x + y) % 2
  {
  }

  lemma {:induction false} SameHalves(a: nat, b: nat)
    requires a / 2 == b / 2 && a % 2 == b % 2
    ensures a == b
  {
  }

  lemma {:induction false} Parity(x: nat, y: nat, z: nat)
    requires z % 2 == (x + y) % 2
    ensures (z + y) % 2 == x % 2
  {
  }

  lemma {:induction false} XorCancel(x: nat, y: nat)
    ensures Xor(Xor(x, y), y) == x
  {
    if x != 0 || y != 0 {
      XorCancel(x / 2, y / 2);
      XorCancelStep(x, y);
    }
  }

  lemma {:induction false} XorCancelStep(x: nat, y: nat)
    requires Xor(Xor(x / 2, y / 2), y / 2) == x / 2
    ensures Xor(Xor(x, y), y) == x
  {
    hide Xor;
    var z := Xor(x, y);
    XorParts(x, y);
    XorParts(z, y);
    Parity(x, y, z);
    SameHalves(Xor(z, y), x);
  }

  lemma {:induction false} XorSwap(x: nat, y: nat)
    ensures Xor(x, y) == Xor(y, x)
  {
    if x != 0 || y != 0 { XorSwap(x / 2, y / 2); }
  }

  lemma {:induction false} XorBound(x: nat, y: nat, n: nat)
    requires x < Pow2(n) && y < Pow2(n)
    ensures Xor(x, y) < Pow2(n)
  {
    if n > 0 { XorBound(x / 2, y / 2, n - 1); }
  }

  // ----- Shifts -----

  /** x >> k, one bit at a time. */
  function Shr(x: nat, k: nat): (r: nat)
    ensures r <= x
  {
    if k == 0 then x else Shr(x / 2, k - 1)
  }

  lemma {:induction false} ShrDivides(x: nat, k: nat)
    ensures Shr(x, k) == x / Pow2(k)
  {
    if k > 0 {
      ShrDivides(x / 2, k - 1);
      HalfThenDivide(x, Pow2(k - 1));
    }
  }

  lemma {:induction false} HalfThenDivide(x: nat, p: nat)
    requires p > 0
    ensures x / 2 / p == x / (2 * p)
  {
    var q, r := x / 2 / p, x / 2 % p;
    QuotientForm(x / 2, p);
    Twice(q, p);
    DivUnique(x, 2 * p, q, 2 * r + x % 2);
  }

  lemma {:induction false} QuotientForm(x: nat, p: nat)
    requires p > 0
    ensures x == x / p * p + x % p
  {
  }

  lemma {:induction false} XorShrDistributes(x: nat, y: nat, k: nat)
    ensures Shr(Xor(x, y), k) == Xor(Shr(x, k), Shr(y, k))
  {
    if k > 0 {
      XorParts(x, y);
      XorShrDistributes(x / 2, y / 2, k - 1);
    }
  }

  /** x ^ (x >> k). */
  function Mix(x: nat, k: nat): nat {
    Xor(x, Shr(x, k))
  }

  /** The inverse of Mix: feed the recovered high part back in. */
  function Unmix(y: nat, k: nat): nat
    requires k > 0
    decreases y
  {
    if y == 0 then 0
    else
      Xor(y, Unmix(Shr(y, k), k))
  }

  lemma {:induction false} UnmixMix(x: nat, k: nat)
    requires k > 0
    ensures Unmix(Mix(x, k), k) == x
    decreases x
  {
    if x > 0 {
      UnmixMix(Shr(x, k), k);
      XorShrDistributes(x, Shr(x, k), k);
      XorCancel(x, Shr(x, k));
    }
  }

  lemma {:induction false} MixUnmix(y: nat, k: nat)
    requires k > 0
    ensures Mix(Unmix(y, k), k) == y
    decreases y
  {
    if y > 0 {
      var high := Unmix(Shr(y, k), k);
      MixUnmix(Shr(y, k), k);
      XorShrDistributes(y, high, k);
      assert Shr(Unmix(y, k), k) == Xor(Shr(y, k), Shr(high, k));
      assert Shr(y, k) == Xor(high, Shr(high, k));
      XorCancel(high, Shr(high, k));
      XorCancel(y, high);
    }
  }

  lemma {:induction false} MixBound(x: nat, k: nat, n: nat)
    requires x < Pow2(n)
    ensures Mix(x, k) < Pow2(n)
  {
    XorBound(x, Shr(x, k), n);
  }

  lemma {:induction false} UnmixBound(y: nat, k: nat, n: nat)
    requires k > 0 && y < Pow2(n)
    ensures Unmix(y, k) < Pow2(n)
    decreases y
  {
    if y > 0 {
      UnmixBound(Shr(y, k), k, n);
      XorBound(y, Unmix(Shr(y, k), k), n);
    }
  }

  // ----- Rotations -----

  /** One bit to the right in a word whose top bit is worth `top`: the low bit becomes the top. */
  function RotateOne(x: nat, top: nat): nat {
    x / 2 + if x % 2 == 1 then top else 0
  }

  function UnrotateOne(y: nat, top: nat): nat {
    if y >= top then 2 * (y - top) + 1 else 2 * y
  }

  /** A rotation to the right by k bits. */
  function Rotate(x: nat, k: nat, top: nat): nat {
    if k == 0 then x else RotateOne(Rotate(x, k - 1, top), top)
  }

  function Unrotate(y: nat, k: nat, top: nat): nat
    decreases k
  {
    if k == 0 then y else Unrotate(UnrotateOne(y, top), k - 1, top)
  }

  lemma {:induction false} RotateBounds(x: nat, k: nat, top: nat)
    requires x < 2 * top
    ensures Rotate(x, k, top) < 2 * top && Unrotate(x, k, top) < 2 * top
    decreases k
  {
    if k > 0 {
      RotateBounds(x, k - 1, top);
      RotateBounds(UnrotateOne(x, top), k - 1, top);
    }
  }

  lemma {:induction false} UnrotateRotate(x: nat, k: nat, top: nat)
    requires x < 2 * top
    ensures Unrotate(Rotate(x, k, top), k, top) == x
  {
    if k > 0 {
      RotateBounds(x, k - 1, top);
      UnrotateRotate(x, k - 1, top);
      assert UnrotateOne(RotateOne(Rotate(x, k - 1, top), top), top) == Rotate(x, k - 1, top);
    }
  }

  lemma {:induction false} RotateUnrotate(y: nat, k: nat, top: nat)
    requires y < 2 * top
    ensures Rotate(Unrotate(y, k, top), k, top) == y
    decreases k
  {
    if k > 0 {
      var z := UnrotateOne(y, top);
      assert z < 2 * top && RotateOne(z, top) == y;
      hide RotateOne, UnrotateOne;
      RotateUnrotate(z, k - 1, top);
    }
  }

  /** The rotation is the source's pair of shifts: x >> k, and the k low bits moved to the top. */
  lemma {:induction false} RotateIsShifts(x: nat, k: nat, n: nat)
    requires 0 < n && k <= n
    ensures Rotate(x, k, Pow2(n - 1)) == Shr(x, k) + (x % Pow2(k)) * Pow2(n - k)
  {
    if k > 0 {
      RotateIsShifts(x, k - 1, n);
      RotateShiftStep(x, k, n);
    }
  }

  lemma {:induction false} RotateShiftStep(x: nat, k: nat, n: nat)
    requires 0 < k <= n && Rotate(x, k - 1, Pow2(n - 1)) == Shr(x, k - 1) + (x % Pow2(k - 1)) * Pow2(n - k + 1)
    ensures Rotate(x, k, Pow2(n - 1)) == Shr(x, k) + (x % Pow2(k)) * Pow2(n - k)
  {
    hide Shr, RotateOne;
    var p, s := Pow2(k - 1), Pow2(n - k);
    var q, r := x / p, x % p;
    ShrDivides(x, k - 1);
    ShrDivides(x, k);
    Pow2Sum(k - 1, n - k);
    LowBits(x, p);
    Twice(r, s);
    OneMoreBit(q, r, p, s);
  }

  lemma {:induction false} Twice(r: nat, s: nat)
    ensures r * (2 * s) == 2 * (r * s)
  {
  }

  lemma {:induction false} OneMoreBit(q: nat, r: nat, p: nat, s: nat)
    ensures RotateOne(q + 2 * (r * s), p * s) == q / 2 + (r + q % 2 * p) * s
  {
    if q % 2 == 1 {
      assert (r + q % 2 * p) * s == (r + p) * s == r * s + p * s;
    } else {
      assert (r + q % 2 * p) * s == r * s;
    }
  }

  lemma {:induction false} LowBits(x: nat, p: nat)
    requires p > 0
    ensures x / (2 * p) == x / p / 2 && x % (2 * p) == x % p + x / p % 2 * p
  {
    var q, r := x / p, x % p;
    assert x == p * q + r && q == 2 * (q / 2) + q % 2;
    assert p * q == 2 * p * (q / 2) + q % 2 * p;
    DivUnique(x, 2 * p, q / 2, r + q % 2 * p);
  }

  // ----- Multiplication -----

  /** Multiplying by c, then by its inverse modulo w. */
  lemma {:induction false} MulInverse(x: nat, c: nat, d: nat, w: nat)
    requires x < w && w > 1 && c * d % w == 1
    ensures (x * c % w) * d % w == x
  {
    var q, t := x * c / w, c * d / w;
    assert x * c == w * q + x * c % w && c * d == w * t + 1;
    calc {
      (x * c % w) * d;
      (x * c - w * q) * d;
      x * c * d - w * q * d;
      x * (c * d) - w * (q * d);
      x * (w * t + 1) - w * (q * d);
      w * (x * t - q * d) + x;
    }
    DivUnique((x * c % w) * d, w, x * t - q * d, x);
  }

  /** A left shift that drops the high bits keeps the low ones, moved up. */
  lemma {:induction false} ShiftedLowBits(x: nat, p: nat, s: nat)
    requires p > 0 && s > 0
    ensures p * s > 0 && x * s % (p * s) == x % p * s
  {
    var q, r := x / p, x % p;
    assert x == p * q + r;
    assert p * s > 0;
    assert x * s == p * s * q + r * s;
    assert r * s < p * s by {
      assert (p - r) * s > 0;
      assert p * s == (p - r) * s + r * s;
    }
    DivUnique(x * s, p * s, q, r * s);
  }
}
