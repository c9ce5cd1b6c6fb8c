/** CityHash64 (rpc/detail/city.cc:242-393, rpc/detail/city.h:101-110). */
module City64 {
  import opened Words
  import opened Bits
  import opened Memory
  import City32

  // ----- 64-bit words -----

  const MOD: nat := 0x1_0000_0000_0000_0000

  lemma {:induction false} Pow2Of64()
    ensures Pow2(64) == MOD
  {
    hide Pow2;
    Pow2Of4();
    Pow2Sum(4, 4);
    Pow2Sum(8, 8);
    Pow2Sum(16, 16);
    Pow2Sum(32, 32);
  }

  function Xor64(x: U64, y: U64): U64 {
    Pow2Of64();
    XorBound(x, y, 64);
    Xor(x, y)
  }

  function Add64(x: U64, y: U64): U64 {
    (x + y) % MOD
  }

  function Sub64(x: U64, y: U64): U64 {
    (x - y) % MOD
  }

  function Mul64(x: U64, y: U64): U64 {
    (x * y) % MOD
  }

  function Rotate64(x: U64, k: nat): U64 {
    RotateBounds(x, k, 0x8000_0000_0000_0000);
    Rotate(x, k, 0x8000_0000_0000_0000)
  }

  /** rpc/detail/city.cc:244 as it is written, for a shift inside the word. */
  lemma {:induction false} RotateMeansShifts(x: U64, k: nat)
    requires 0 < k < 64
    ensures Rotate64(x, k) == x / Pow2(k) + x * Pow2(64 - k) % MOD
  {
    hide Rotate, Shr, Pow2;
    Pow2Of64();
    Pow2Of63();
    RotateIsShifts(x, k, 64);
    ShrDivides(x, k);
    Pow2Sum(k, 64 - k);
    ShiftedLowBits(x, Pow2(k), Pow2(64 - k));
  }

  lemma {:induction false} Pow2Of63()
    ensures Pow2(63) == 0x8000_0000_0000_0000
  {
    Pow2Of64();
    assert Pow2(64) == 2 * Pow2(63);
  }

  function ShiftMix(x: U64): U64 {
    Pow2Of64();
    MixBound(x, 47, 64);
    Mix(x, 47)
  }

  function Unshift(y: U64): U64 {
    Pow2Of64();
    UnmixBound(y, 47, 64);
    Unmix(y, 47)
  }

  /** bswap_64: the halves change places and each is reversed. */
  function Bswap64(x: U64): U64 {
    City32.Bswap32(x / 0x1_0000_0000) + 0x1_0000_0000 * City32.Bswap32(x % 0x1_0000_0000)
  }

  /** The words at these offsets. */
  function FetchAll(s: seq<Byte>, offsets: seq<nat>): (w: seq<U64>)
    requires InRange(offsets, 8, |s|)
    ensures |w| == |offsets| && forall k | 0 <= k < |w| :: w[k] == Fetch64(s, offsets[k])
  {
    seq(|offsets|, k requires 0 <= k < |offsets| => Fetch64(s, offsets[k]))
  }

  function ToWord(n: nat): U64 {
    n % MOD
  }

  const K0: U64 := 0xc3a5c85c97cb3127
  const K1: U64 := 0xb492b66fbe98f273
  const K2: U64 := 0x9ae16a3b2f90404f
  const K_MUL: U64 := 0x9ddfea08eb382d69
  const K_MUL_INV: U64 := 0xdc56e6f5090b32d9

  // ----- Combining two words -----

  /** Hash128to64, which HashLen16 of two arguments calls. */
  function HashLen16(u: U64, v: U64): U64 {
    var a := ShiftMix(Mul64(Xor64(u, v), K_MUL));
    Mul64(ShiftMix(Mul64(Xor64(v, a), K_MUL)), K_MUL)
  }

  /** The first argument back from the result and the second. */
  function HashLen16Undo(h: U64, v: U64): U64 {
    var b := Unshift(Mul64(h, K_MUL_INV));
    var a := Unshift(Xor64(Mul64(b, K_MUL_INV), v));
    Xor64(Mul64(a, K_MUL_INV), v)
  }

  lemma {:induction false} MulUndo(x: U64)
    ensures Mul64(Mul64(x, K_MUL), K_MUL_INV) == x
  {
    assert K_MUL * K_MUL_INV % MOD == 1;
    MulInverse(x, K_MUL, K_MUL_INV, MOD);
  }

  lemma {:induction false} ShiftUndo(x: U64)
    ensures Unshift(ShiftMix(x)) == x
  {
    UnmixMix(x, 47);
  }

  lemma {:induction false} XorUndo(x: U64, y: U64)
    ensures Xor64(Xor64(x, y), y) == x && Xor64(Xor64(y, x), y) == x
  {
    XorCancel(x, y);
    XorSwap(x, y);
  }

  /** HashLen16 is injective in its first argument. */
  lemma {:induction false} HashLen16Injective(u: U64, v: U64)
    ensures HashLen16Undo(HashLen16(u, v), v) == u
  {
    hide Xor64, Mul64, ShiftMix, Unshift;
    var p := Xor64(u, v);
    var a := ShiftMix(Mul64(p, K_MUL));
    var q := Xor64(v, a);
    var b := ShiftMix(Mul64(q, K_MUL));
    XorUndo(u, v); MulUndo(p); ShiftUndo(Mul64(p, K_MUL));
    XorUndo(a, v); MulUndo(q); ShiftUndo(Mul64(q, K_MUL)); MulUndo(b);
  }

  function HashLen16With(u: U64, v: U64, mul: U64): U64 {
    var a := ShiftMix(Mul64(Xor64(u, v), mul));
    Mul64(ShiftMix(Mul64(Xor64(v, a), mul)), mul)
  }

  // ----- Up to 64 bytes -----

  function Multiplier(n: nat): U64 {
    Add64(K2, ToWord(n * 2))
  }

  function Offsets8to16(n: nat): seq<nat>
    requires n >= 8
  {
    [0, n - 8]
  }

  function HashLen0to16(s: seq<Byte>): U64
    requires |s| <= 16
  {
    var n := |s|;
    if n >= 8 then
      var mul, w := Multiplier(n), FetchAll(s, Offsets8to16(n));
      var a, b := Add64(w[0], K2), w[1];
      HashLen16With(Add64(Mul64(Rotate64(b, 37), mul), a), Mul64(Add64(Rotate64(a, 25), b), mul), mul)
    else if n >= 4 then
      HashLen16With(n + Fetch32(s, 0) * 8, Fetch32(s, n - 4), Multiplier(n))
    else if n > 0 then
      var y := s[0] + 0x100 * (s[n / 2] as int);
      var z := n + 4 * (s[n - 1] as int);
      Mul64(ShiftMix(Xor64(Mul64(y, K2), Mul64(z, K0))), K2)
    else K2
  }

  function Offsets17to32(n: nat): seq<nat>
    requires n >= 16
  {
    [0, 8, n - 8, n - 16]
  }

  function HashLen17to32(s: seq<Byte>): U64
    requires 16 < |s| <= 32
  {
    var mul, w := Multiplier(|s|), FetchAll(s, Offsets17to32(|s|));
    var a, b, c, d := Mul64(w[0], K1), w[1], Mul64(w[2], mul), Mul64(w[3], K2);
    HashLen16With(Add64(Add64(Rotate64(Add64(a, b), 43), Rotate64(c, 30)), d),
                  Add64(Add64(a, Rotate64(Add64(b, K2), 18)), c), mul)
  }

  function Offsets33to64(n: nat): seq<nat>
    requires n >= 32
  {
    [0, 8, n - 24, n - 32, 16, 24, n - 8, n - 16]
  }

  function HashLen33to64(s: seq<Byte>): U64
    requires 32 < |s| <= 64
  {
    var mul, t := Multiplier(|s|), FetchAll(s, Offsets33to64(|s|));
    var a, b, c, d := Mul64(t[0], K2), t[1], t[2], t[3];
    var e, f, g, h := Mul64(t[4], K2), Mul64(t[5], 9), t[6], Mul64(t[7], mul);
    var u := Add64(Rotate64(Add64(a, g), 43), Mul64(Add64(Rotate64(b, 30), c), 9));
    var v := Add64(Add64(Xor64(Add64(a, g), d), f), 1);
    var w := Add64(Bswap64(Mul64(Add64(u, v), mul)), h);
    var x := Add64(Rotate64(Add64(e, f), 42), c);
    var y := Mul64(Add64(Bswap64(Mul64(Add64(v, w), mul)), g), mul);
    var z := Add64(Add64(e, f), c);
    var a' := Add64(Bswap64(Add64(Mul64(Add64(x, z), mul), y)), b);
    Add64(Mul64(ShiftMix(Add64(Add64(Mul64(Add64(z, a'), mul), d), h)), mul), x)
  }

  // ----- Blocks of 64 bytes -----

  datatype Pair = Pair(first: U64, second: U64)

  /** WeakHashLen32WithSeeds on four words. */
  function WeakHash(w: U64, x: U64, y: U64, z: U64, a: U64, b: U64): Pair {
    var a1 := Add64(a, w);
    var b1 := Rotate64(Add64(Add64(b, a1), z), 21);
    var a2 := Add64(Add64(a1, x), y);
    Pair(Add64(a2, z), Add64(Add64(b1, Rotate64(a2, 44)), a1))
  }

  datatype State = State(x: U64, y: U64, z: U64, v: Pair, w: Pair)

  function BlockOffsets(p: nat): seq<nat> {
    [p, p + 8, p + 16, p + 24, p + 32, p + 40, p + 48, p + 56]
  }

  /** city.cc:371-378 on the eight words of a block. */
  function BlockStep(st: State, t: seq<U64>): State
    requires |t| == 8
  {
    var x := Xor64(Mul64(Rotate64(Add64(Add64(Add64(st.x, st.y), st.v.first), t[1]), 37), K1), st.w.second);
    var y := Add64(Mul64(Rotate64(Add64(Add64(st.y, st.v.second), t[6]), 42), K1), Add64(st.v.first, t[5]));
    var z := Mul64(Rotate64(Add64(st.z, st.w.first), 33), K1);
    var v := WeakHash(t[0], t[1], t[2], t[3], Mul64(st.v.second, K1), Add64(x, st.w.first));
    var w := WeakHash(t[4], t[5], t[6], t[7], Add64(z, st.w.second), Add64(y, t[2]));
    State(z, y, x, v, w)
  }

  /** n block steps over the start of s. */
  function Blocks(st: State, s: seq<Byte>, n: nat): State
    requires 64 * n <= |s|
  {
    if n == 0 then st else BlockStep(Blocks(st, s, n - 1), FetchAll(s, BlockOffsets(64 * (n - 1))))
  }

  /** WeakHashLen32WithSeeds on the 32 bytes at p. */
  function WeakHashAt(s: seq<Byte>, p: nat, a: U64, b: U64): Pair
    requires p + 32 <= |s|
  {
    WeakHash(Fetch64(s, p), Fetch64(s, p + 8), Fetch64(s, p + 16), Fetch64(s, p + 24), a, b)
  }

  lemma {:induction false} BlockWords(s: seq<Byte>, p: nat)
    requires p + 64 <= |s|
    ensures FetchAll(s, BlockOffsets(p)) == [Fetch64(s, p), Fetch64(s, p + 8), Fetch64(s, p + 16), Fetch64(s, p + 24),
                                             Fetch64(s, p + 32), Fetch64(s, p + 40), Fetch64(s, p + 48), Fetch64(s, p + 56)]
  {
    hide Fetch64;
  }

  function StartOffsets(n: nat): seq<nat>
    requires n >= 64
  {
    [n - 40, n - 16, n - 56, n - 48, n - 24, n - 64, n - 32, n - 8, 0]
  }

  /** city.cc:361-366: the end of the input first. */
  function Start(s: seq<Byte>): State
    requires |s| > 64
  {
    var n, t := ToWord(|s|), FetchAll(s, StartOffsets(|s|));
    var x, y := t[0], Add64(t[1], t[2]);
    var z := HashLen16(Add64(t[3], n), t[4]);
    State(Add64(Mul64(x, K1), t[8]), y, z,
          WeakHash(t[5], t[2], t[3], t[0], n, z), WeakHash(t[6], t[4], t[1], t[7], Add64(y, K1), x))
  }

  function Finish(st: State): U64 {
    HashLen16(Add64(Add64(HashLen16(st.v.first, st.w.first), Mul64(ShiftMix(st.y), K1)), st.z),
              Add64(HashLen16(st.v.second, st.w.second), st.x))
  }

  function CityHash64(s: seq<Byte>): U64 {
    if |s| <= 16 then HashLen0to16(s)
    else if |s| <= 32 then HashLen17to32(s)
    else if |s| <= 64 then HashLen33to64(s)
    else Finish(Blocks(Start(s), s, (|s| - 1) / 64))
  }

  // ----- The source's statements -----
  //
  // As for CityHash32: a string is a pointer p into an input, and each method reads exactly the string.

  lemma {:induction false} Spans0to16(p: nat, n: nat)
    ensures 8 <= n <= 16 ==> Span(p + 0, p + 0 + 8) + Span(p + (n - 8), p + (n - 8) + 8) == Span(p, p + n)
    ensures 4 <= n <= 7 ==> Span(p + 0, p + 0 + 4) + Span(p + (n - 4), p + (n - 4) + 4) == Span(p, p + n)
    ensures 0 < n <= 3 ==>
              Span(p + 0, p + 0 + 1) + Span(p + n / 2, p + n / 2 + 1) + Span(p + (n - 1), p + (n - 1) + 1) == Span(p, p + n)
    ensures n == 0 ==> Span(p, p + n) == {}
  {
  }

  /** city.cc:265-288. */
  method ComputeHashLen0to16(input: Input, p: nat) returns (hash: U64)
    requires 0 <= |input.bytes| - p <= 16
    modifies input`read
    ensures hash == HashLen0to16(input.bytes[p..])
    ensures input.read == old(input.read) + Span(p, |input.bytes|)
  {
    hide Mul64, Add64, Xor64, Rotate64, ShiftMix, HashLen16With, Multiplier, Fetch64, Fetch32, Span;
    ghost var s := input.bytes[p..];
    var len := |input.bytes| - p;
    Spans0to16(p, len);
    if len >= 8 {
      var mul := Multiplier(len);
      var t := input.Load64(p, 0);
      var a := Add64(t, K2);
      var b := input.Load64(p, len - 8);
      assert FetchAll(s, Offsets8to16(len)) == [t, b];
      var c := Add64(Mul64(Rotate64(b, 37), mul), a);
      var d := Mul64(Add64(Rotate64(a, 25), b), mul);
      return HashLen16With(c, d, mul);
    }
    if len >= 4 {
      var mul := Multiplier(len);
      var a := input.Load32(p, 0);
      var b := input.Load32(p, len - 4);
      return HashLen16With(len + 8 * (a as int), b, mul);
    }
    if len > 0 {
      var a := input.Load8(p, 0);
      var b := input.Load8(p, len / 2);
      var c := input.Load8(p, len - 1);
      var y := (a as int) + 0x100 * (b as int);
      var z := len + 4 * (c as int);
      return Mul64(ShiftMix(Xor64(Mul64(y, K2), Mul64(z, K0))), K2);
    }
    return K2;
  }

  lemma {:induction false} Spans17to32(p: nat, n: nat)
    requires 16 < n <= 32
    ensures Span(p + 0, p + 0 + 8) + Span(p + 8, p + 8 + 8) + Span(p + (n - 8), p + (n - 8) + 8)
            + Span(p + (n - 16), p + (n - 16) + 8) == Span(p, p + n)
  {
  }

  /** city.cc:292-300. */
  method ComputeHashLen17to32(input: Input, p: nat) returns (hash: U64)
    requires 16 < |input.bytes| - p <= 32
    modifies input`read
    ensures hash == HashLen17to32(input.bytes[p..])
    ensures input.read == old(input.read) + Span(p, |input.bytes|)
  {
    hide Mul64, Add64, Rotate64, HashLen16With, Multiplier, Fetch64, Span;
    ghost var s := input.bytes[p..];
    var len := |input.bytes| - p;
    var mul := Multiplier(len);
    var t0 := input.Load64(p, 0);
    var a := Mul64(t0, K1);
    var b := input.Load64(p, 8);
    var t2 := input.Load64(p, len - 8);
    var c := Mul64(t2, mul);
    var t3 := input.Load64(p, len - 16);
    var d := Mul64(t3, K2);
    assert FetchAll(s, Offsets17to32(len)) == [t0, b, t2, t3];
    Spans17to32(p, len);
    hash := HashLen16With(Add64(Add64(Rotate64(Add64(a, b), 43), Rotate64(c, 30)), d),
                          Add64(Add64(a, Rotate64(Add64(b, K2), 18)), c), mul);
  }

  lemma {:induction false} Spans33to64(p: nat, n: nat)
    requires 32 < n <= 64
    ensures Span(p + 0, p + 0 + 8) + Span(p + 8, p + 8 + 8) + Span(p + (n - 24), p + (n - 24) + 8) + Span(p + (n - 32), p + (n - 32) + 8)
            + Span(p + 16, p + 16 + 8) + Span(p + 24, p + 24 + 8) + Span(p + (n - 8), p + (n - 8) + 8) + Span(p + (n - 16), p + (n - 16) + 8)
            == Span(p, p + n)
  {
    hide Span;
    Spans32(p);
    Spans32(p + n - 32);
    SpansJoin(p, p + n - 32, p + 32, p + n);
  }

  lemma {:induction false} SpansJoin(a: int, b: int, c: int, d: int)
    requires a <= b <= c <= d
    ensures Span(a, c) + Span(b, d) == Span(a, d)
  {
  }

  lemma {:induction false} Words33to64(s: seq<Byte>)
    requires 32 < |s| <= 64
    ensures var n := |s|;
            FetchAll(s, Offsets33to64(n)) == [Fetch64(s, 0), Fetch64(s, 8), Fetch64(s, n - 24), Fetch64(s, n - 32),
                                              Fetch64(s, 16), Fetch64(s, 24), Fetch64(s, n - 8), Fetch64(s, n - 16)]
  {
    hide Fetch64;
  }

  /** city.cc:327-346. */
  method ComputeHashLen33to64(input: Input, p: nat) returns (hash: U64)
    requires 32 < |input.bytes| - p <= 64
    modifies input`read
    ensures hash == HashLen33to64(input.bytes[p..])
    ensures input.read == old(input.read) + Span(p, |input.bytes|)
  {
    hide Mul64, Add64, Xor64, Rotate64, ShiftMix, Bswap64, Multiplier, Fetch64, Span, FetchAll;
    ghost var s := input.bytes[p..];
    var len := |input.bytes| - p;
    var mul := Multiplier(len);
    var t0 := input.Load64(p, 0);
    var a := Mul64(t0, K2);
    var b := input.Load64(p, 8);
    var c := input.Load64(p, len - 24);
    var d := input.Load64(p, len - 32);
    var t4 := input.Load64(p, 16);
    var e := Mul64(t4, K2);
    var t5 := input.Load64(p, 24);
    var f := Mul64(t5, 9);
    var g := input.Load64(p, len - 8);
    var t7 := input.Load64(p, len - 16);
    var h := Mul64(t7, mul);
    Words33to64(s);
    Spans33to64(p, len);
    var u := Add64(Rotate64(Add64(a, g), 43), Mul64(Add64(Rotate64(b, 30), c), 9));
    var v := Add64(Add64(Xor64(Add64(a, g), d), f), 1);
    var w := Add64(Bswap64(Mul64(Add64(u, v), mul)), h);
    var x := Add64(Rotate64(Add64(e, f), 42), c);
    var y := Mul64(Add64(Bswap64(Mul64(Add64(v, w), mul)), g), mul);
    var z := Add64(Add64(e, f), c);
    a := Add64(Bswap64(Add64(Mul64(Add64(x, z), mul), y)), b);
    b := Mul64(ShiftMix(Add64(Add64(Mul64(Add64(z, a), mul), d), h)), mul);
    hash := Add64(b, x);
  }

  lemma {:induction false} Spans32(q: nat)
    ensures Span(q, q + 8) + Span(q + 8, q + 16) + Span(q + 16, q + 24) + Span(q + 24, q + 32) == Span(q, q + 32)
  {
  }

  /** WeakHashLen32WithSeeds(s + i, a, b), city.cc:316-324. */
  method WeakHashWithSeeds(input: Input, p: nat, i: nat, a: U64, b: U64) returns (r: Pair)
    requires p + i + 32 <= |input.bytes|
    modifies input`read
    ensures r == WeakHashAt(input.bytes[p..], i, a, b)
    ensures input.read == old(input.read) + Span(p + i, p + i + 32)
  {
    hide WeakHash, Fetch64, Span;
    var w := input.Load64(p, i);
    var x := input.Load64(p, i + 8);
    var y := input.Load64(p, i + 16);
    var z := input.Load64(p, i + 24);
    Spans32(p + i);
    r := WeakHash(w, x, y, z, a, b);
  }

  lemma {:induction false} SpansStart(p: nat, e: nat)
    requires e >= p + 64
    ensures Span(e - 40, e - 32) + Span(e - 16, e - 8) + Span(e - 56, e - 48) + Span(e - 48, e - 40) + Span(e - 24, e - 16)
            + Span(e - 64, e - 32) + Span(e - 32, e) + Span(p, p + 8) == Span(e - 64, e) + Span(p, p + 8)
  {
  }

  /** city.cc:361-366. */
  method ComputeStart(input: Input, p: nat) returns (x: U64, y: U64, z: U64, v: Pair, w: Pair)
    requires |input.bytes| - p > 64
    modifies input`read
    ensures State(x, y, z, v, w) == Start(input.bytes[p..])
    ensures input.read == old(input.read) + (Span(|input.bytes| - 64, |input.bytes|) + Span(p, p + 8))
  {
    hide Mul64, Add64, HashLen16, WeakHash, Fetch64, Span;
    ghost var s := input.bytes[p..];
    var len := |input.bytes| - p;
    x := input.Load64(p, len - 40);
    ghost var t0 := x;
    var t1 := input.Load64(p, len - 16);
    var t2 := input.Load64(p, len - 56);
    y := Add64(t1, t2);
    var t3 := input.Load64(p, len - 48);
    var t4 := input.Load64(p, len - 24);
    z := HashLen16(Add64(t3, ToWord(len)), t4);
    v := WeakHashWithSeeds(input, p, len - 64, ToWord(len), z);
    w := WeakHashWithSeeds(input, p, len - 32, Add64(y, K1), x);
    var t8 := input.Load64(p, 0);
    x := Add64(Mul64(x, K1), t8);
    StartWords(s);
    SpansStart(p, |input.bytes|);
  }

  lemma {:induction false} StartWords(s: seq<Byte>)
    requires |s| > 64
    ensures var n := |s|;
            FetchAll(s, StartOffsets(n)) == [Fetch64(s, n - 40), Fetch64(s, n - 16), Fetch64(s, n - 56), Fetch64(s, n - 48), Fetch64(s, n - 24),
                                             Fetch64(s, n - 64), Fetch64(s, n - 32), Fetch64(s, n - 8), Fetch64(s, 0)]
  {
    hide Fetch64;
  }

  lemma {:induction false} SpansBlock(q: nat)
    ensures Span(q + 8, q + 16) + Span(q + 48, q + 56) + Span(q + 40, q + 48) + Span(q, q + 32) + Span(q + 16, q + 24) + Span(q + 32, q + 64)
            == Span(q, q + 64)
  {
  }

  /** The statements city.cc:371-378, on the 64 bytes at s + at. */
  method BlockBody(input: Input, p: nat, at: nat, x0: U64, y0: U64, z0: U64, v0: Pair, w0: Pair)
      returns (x: U64, y: U64, z: U64, v: Pair, w: Pair)
    requires p + at + 64 <= |input.bytes|
    modifies input`read
    ensures State(x, y, z, v, w) == BlockStep(State(x0, y0, z0, v0, w0), FetchAll(input.bytes[p..], BlockOffsets(at)))
    ensures input.read == old(input.read) + Span(p + at, p + at + 64)
  {
    hide Mul64, Xor64, Add64, Rotate64, WeakHash, Fetch64, Span, FetchAll;
    x, y, z, v, w := x0, y0, z0, v0, w0;
    var t := input.Load64(p, at + 8);
    x := Mul64(Rotate64(Add64(Add64(Add64(x, y), v.first), t), 37), K1);
    t := input.Load64(p, at + 48);
    y := Mul64(Rotate64(Add64(Add64(y, v.second), t), 42), K1);
    x := Xor64(x, w.second);
    t := input.Load64(p, at + 40);
    y := Add64(y, Add64(v.first, t));
    z := Mul64(Rotate64(Add64(z, w.first), 33), K1);
    v := WeakHashWithSeeds(input, p, at, Mul64(v.second, K1), Add64(x, w.first));
    t := input.Load64(p, at + 16);
    w := WeakHashWithSeeds(input, p, at + 32, Add64(z, w.second), Add64(y, t));
    z, x := x, z;
    BlockWords(input.bytes[p..], at);
    SpansBlock(p + at);
  }

  /** The do-while loop, city.cc:369-381. */
  method MixBlocks(input: Input, p: nat, x0: U64, y0: U64, z0: U64, v0: Pair, w0: Pair)
      returns (x: U64, y: U64, z: U64, v: Pair, w: Pair)
    requires |input.bytes| - p > 64
    modifies input`read
    ensures var s := input.bytes[p..];
            State(x, y, z, v, w) == Blocks(State(x0, y0, z0, v0, w0), s, (|s| - 1) / 64)
    ensures input.read == old(input.read) + Span(p, p + (|input.bytes| - p - 1) / 64 * 64)
  {
    hide BlockStep, FetchAll;
    ghost var s, st := input.bytes[p..], State(x0, y0, z0, v0, w0);
    x, y, z, v, w := x0, y0, z0, v0, w0;
    var at, len := 0, (|input.bytes| - p - 1) / 64 * 64;
    ghost var n := 0;
    while true
      invariant len > 0 && at == 64 * n && at + len == (|s| - 1) / 64 * 64
      invariant State(x, y, z, v, w) == Blocks(st, s, n)
      invariant input.read == old(input.read) + Span(p, p + at)
      decreases len
    {
      x, y, z, v, w := BlockBody(input, p, at, x, y, z, v, w);
      n := n + 1;
      at := at + 64;
      len := len - 64;
      if len == 0 { break; }
    }
  }

  /** city.cc:348-384. */
  method ComputeCityHash64(input: Input, p: nat) returns (hash: U64)
    requires p <= |input.bytes|
    modifies input`read
    ensures hash == CityHash64(input.bytes[p..])
    ensures input.read == old(input.read) + Span(p, |input.bytes|)
  {
    hide Start, Blocks, HashLen0to16, HashLen17to32, HashLen33to64, Mul64, Add64, ShiftMix, HashLen16;
    ghost var s := input.bytes[p..];
    var len := |input.bytes| - p;
    if len <= 32 {
      if len <= 16 {
        hash := ComputeHashLen0to16(input, p);
      } else {
        hash := ComputeHashLen17to32(input, p);
      }
      return;
    } else if len <= 64 {
      hash := ComputeHashLen33to64(input, p);
      return;
    }
    var x, y, z, v, w := ComputeStart(input, p);
    x, y, z, v, w := MixBlocks(input, p, x, y, z, v, w);
    SpansJoin(p, |input.bytes| - 64, p + (len - 1) / 64 * 64, |input.bytes|);
    hash := HashLen16(Add64(Add64(HashLen16(v.first, w.first), Mul64(ShiftMix(y), K1)), z),
                      Add64(HashLen16(v.second, w.second), x));
  }

  // ----- Seeds -----

  function CityHash64WithSeeds(s: seq<Byte>, seed0: U64, seed1: U64): U64 {
    HashLen16(Sub64(CityHash64(s), seed0), seed1)
  }

  /** For fixed seeds, two strings collide exactly when they collide without seeds. */
  lemma {:induction false} SeedsKeepCollisions(s: seq<Byte>, t: seq<Byte>, seed0: U64, seed1: U64)
    ensures CityHash64WithSeeds(s, seed0, seed1) == CityHash64WithSeeds(t, seed0, seed1) <==> CityHash64(s) == CityHash64(t)
  {
    hide CityHash64, HashLen16, HashLen16Undo;
    var a, b := CityHash64(s), CityHash64(t);
    HashLen16Injective(Sub64(a, seed0), seed1);
    HashLen16Injective(Sub64(b, seed0), seed1);
    assert Add64(Sub64(a, seed0), seed0) == a && Add64(Sub64(b, seed0), seed0) == b;
  }

  // ----- What a block step keeps of the state -----

  const K1_INV: U64 := 0x1ec3fe17279602bb

  lemma {:induction false} MulK1Undo(x: U64)
    ensures Mul64(Mul64(x, K1), K1_INV) == x
  {
    assert K1 * K1_INV % MOD == 1;
    MulInverse(x, K1, K1_INV, MOD);
  }

  lemma {:induction false} MulK1Injective(x: U64, y: U64)
    requires Mul64(x, K1) == Mul64(y, K1)
    ensures x == y
  {
    hide Mul64;
    MulK1Undo(x);
    MulK1Undo(y);
  }

  lemma {:induction false} RotateInjective(x: U64, y: U64, k: nat)
    requires Rotate64(x, k) == Rotate64(y, k)
    ensures x == y
  {
    UnrotateRotate(x, k, 0x8000_0000_0000_0000);
    UnrotateRotate(y, k, 0x8000_0000_0000_0000);
  }

  lemma {:induction false} AddInjective(x: U64, y: U64, a: U64)
    ensures Add64(x, a) == Add64(y, a) <==> x == y
    ensures Add64(a, x) == Add64(a, y) <==> x == y
  {
  }

  lemma {:induction false} XorInjective(x: U64, y: U64, a: U64)
    requires Xor64(x, a) == Xor64(y, a)
    ensures x == y
  {
    XorUndo(x, a);
    XorUndo(y, a);
  }

  lemma {:induction false} WeakHashInjective(w: U64, x: U64, y: U64, z: U64, a: U64, b: U64, c: U64, d: U64)
    requires WeakHash(w, x, y, z, a, b) == WeakHash(w, x, y, z, c, d)
    ensures a == c && b == d
  {
    hide Add64, Rotate64;
    var a1, c1 := Add64(a, w), Add64(c, w);
    AddInjective(Add64(Add64(a1, x), y), Add64(Add64(c1, x), y), z);
    AddInjective(Add64(a1, x), Add64(c1, x), y);
    AddInjective(a1, c1, x);
    AddInjective(a, c, w);
    var b1, d1 := Rotate64(Add64(Add64(b, a1), z), 21), Rotate64(Add64(Add64(d, a1), z), 21);
    var r := Rotate64(Add64(Add64(a1, x), y), 44);
    AddInjective(Add64(b1, r), Add64(d1, r), a1);
    AddInjective(b1, d1, r);
    RotateInjective(Add64(Add64(b, a1), z), Add64(Add64(d, a1), z), 21);
    AddInjective(Add64(b, a1), Add64(d, a1), z);
    AddInjective(b, d, a1);
  }

  /** What a block step can see of x, y and v.first: two sums for three words. */
  function SeenByX(st: State): U64 {
    Add64(Add64(st.x, st.y), st.v.first)
  }

  function SeenByY(st: State, word: U64): U64 {
    Add64(Mul64(Rotate64(Add64(Add64(st.y, st.v.second), word), 42), K1), st.v.first)
  }

  lemma {:induction false} AddAssociates(a: U64, b: U64, c: U64)
    ensures Add64(a, Add64(b, c)) == Add64(Add64(a, b), c)
  {
    AddReduced(a, b + c);
    AddReduced(c, a + b);
  }

  lemma {:induction false} AddReduced(a: nat, b: nat)
    ensures (a + b % MOD) % MOD == (a + b) % MOD
  {
    DivUnique(a + b, MOD, b / MOD + (a + b % MOD) / MOD, (a + b % MOD) % MOD);
  }

  lemma {:induction false} StepParts(a: State, t: seq<U64>)
    requires |t| == 8
    ensures BlockStep(a, t).y == Add64(SeenByY(a, t[6]), t[5])
    ensures BlockStep(a, t).z == Xor64(Mul64(Rotate64(Add64(SeenByX(a), t[1]), 37), K1), a.w.second)
  {
    hide Add64, Mul64, Rotate64, Xor64, WeakHash;
    AddAssociates(Mul64(Rotate64(Add64(Add64(a.y, a.v.second), t[6]), 42), K1), a.v.first, t[5]);
  }

  /** Two states reach the same state through the same block exactly when they agree on z, w,
      v.second and the two sums: unlike a round of CityHash32, a block step is no permutation. */
  lemma {:induction false} BlockStepCollides(a: State, b: State, t: seq<U64>)
    requires |t| == 8
    ensures BlockStep(a, t) == BlockStep(b, t) <==>
            a.z == b.z && a.w == b.w && a.v.second == b.v.second && SeenByX(a) == SeenByX(b) && SeenByY(a, t[6]) == SeenByY(b, t[6])
  {
    hide Add64, Mul64, Rotate64, Xor64, WeakHash, SeenByX, SeenByY;
    StepParts(a, t);
    StepParts(b, t);
    if BlockStep(a, t) == BlockStep(b, t) {
      var c := BlockStep(a, t);
      AddInjective(SeenByY(a, t[6]), SeenByY(b, t[6]), t[5]);
      WeakHashInjective(t[0], t[1], t[2], t[3], Mul64(a.v.second, K1), Add64(c.z, a.w.first), Mul64(b.v.second, K1), Add64(c.z, b.w.first));
      WeakHashInjective(t[4], t[5], t[6], t[7], Add64(c.x, a.w.second), Add64(c.y, t[2]), Add64(c.x, b.w.second), Add64(c.y, t[2]));
      MulK1Injective(a.v.second, b.v.second);
      AddInjective(a.w.first, b.w.first, c.z);
      AddInjective(a.w.second, b.w.second, c.x);
      MulK1Injective(Rotate64(Add64(a.z, a.w.first), 33), Rotate64(Add64(b.z, a.w.first), 33));
      RotateInjective(Add64(a.z, a.w.first), Add64(b.z, a.w.first), 33);
      AddInjective(a.z, b.z, a.w.first);
      var p, q := Add64(SeenByX(a), t[1]), Add64(SeenByX(b), t[1]);
      XorInjective(Mul64(Rotate64(p, 37), K1), Mul64(Rotate64(q, 37), K1), a.w.second);
      MulK1Injective(Rotate64(p, 37), Rotate64(q, 37));
      RotateInjective(p, q, 37);
      AddInjective(SeenByX(a), SeenByX(b), t[1]);
    }
  }

  /** Every state shares its successor with another for each other value of y: 64 of the 448 bits
      of state are lost at each block. */
  lemma {:induction false} BlockStepForgets(a: State, y: U64, t: seq<U64>) returns (b: State)
    requires |t| == 8
    ensures b.y == y && BlockStep(b, t) == BlockStep(a, t)
    ensures forall c: State :: c.y == y && BlockStep(c, t) == BlockStep(a, t) ==> c == b
  {
    var ry := Mul64(Rotate64(Add64(Add64(y, a.v.second), t[6]), 42), K1);
    var v1 := Sub64(SeenByY(a, t[6]), ry);
    var x := Sub64(Sub64(SeenByX(a), v1), y);
    b := State(x, y, a.z, Pair(v1, a.v.second), a.w);
    hide BlockStep, Rotate64, Mul64;
    SubUndo(SeenByY(a, t[6]), ry);
    SubUndo2(SeenByX(a), y, v1);
    BlockStepCollides(b, a, t);
    forall c: State | c.y == y && BlockStep(c, t) == BlockStep(a, t) ensures c == b {
      BlockStepCollides(c, a, t);
      AddInjective(c.v.first, v1, ry);
      AddInjective(Add64(c.x, y), Add64(x, y), v1);
      AddInjective(c.x, x, y);
    }
  }

  lemma {:induction false} SubUndo(a: U64, b: U64)
    ensures Add64(b, Sub64(a, b)) == a && Add64(Sub64(a, b), b) == a
  {
  }

  lemma {:induction false} SubUndo2(a: U64, b: U64, c: U64)
    ensures Add64(Add64(Sub64(Sub64(a, c), b), b), c) == a
  {
    SubUndo(Sub64(a, c), b);
    SubUndo(a, c);
  }
}
