/** Values of CityHash64 and CityHash128 for inputs of every length class, worked out step by step from
    the statements of rpc/detail/city.cc:242-495. Each value depends on every constant, rotation and
    order of operations on its way. */
module KnownLongHashes {
  import opened Words
  import opened Bits
  import opened Memory
  import opened City64
  import opened City128
  import opened KnownHashes
  import City32

  // ----- The steps as arithmetic -----

  datatype LongWord = Long(high: Word, low: Word)

  function LongValue(w: LongWord): nat {
    0x1_0000_0000 * Value(w.high) + Value(w.low)
  }

  function XorLong(a: LongWord, b: LongWord): LongWord {
    Long(XorWord(a.high, b.high), XorWord(a.low, b.low))
  }

  lemma {:induction false} EightDigits(x: nat, y: nat, a: Word, b: Word)
    ensures Xor(0x1_0000_0000 * x + Value(a), 0x1_0000_0000 * y + Value(b)) == 0x1_0000_0000 * Xor(x, y) + Value(XorWord(a, b))
  {
    hide Xor, Digit, Diff;
    var p, q := x, y;
    OneDigit(p, q, a.d7, b.d7);
    p, q := 16 * p + Digit(a.d7), 16 * q + Digit(b.d7);
    OneDigit(p, q, a.d6, b.d6);
    p, q := 16 * p + Digit(a.d6), 16 * q + Digit(b.d6);
    OneDigit(p, q, a.d5, b.d5);
    p, q := 16 * p + Digit(a.d5), 16 * q + Digit(b.d5);
    OneDigit(p, q, a.d4, b.d4);
    p, q := 16 * p + Digit(a.d4), 16 * q + Digit(b.d4);
    OneDigit(p, q, a.d3, b.d3);
    p, q := 16 * p + Digit(a.d3), 16 * q + Digit(b.d3);
    OneDigit(p, q, a.d2, b.d2);
    p, q := 16 * p + Digit(a.d2), 16 * q + Digit(b.d2);
    OneDigit(p, q, a.d1, b.d1);
    p, q := 16 * p + Digit(a.d1), 16 * q + Digit(b.d1);
    OneDigit(p, q, a.d0, b.d0);
  }

  lemma {:induction false} XorLongs(a: LongWord, b: LongWord)
    ensures Xor(LongValue(a), LongValue(b)) == LongValue(XorLong(a, b))
  {
    hide Xor, Value, XorWord;
    EightDigits(Value(a.high), Value(b.high), a.low, b.low);
    XorWords(a.high, b.high);
  }

  /** x ^ y is z, by the halves. */
  lemma {:induction false} LongXorIs(ah: Word, al: Word, bh: Word, bl: Word, xh: nat, xl: nat, yh: nat, yl: nat, zh: nat, zl: nat, x: U64, y: U64, z: U64)
    requires Value(ah) == xh && Value(al) == xl && 0x1_0000_0000 * xh + xl == x
    requires Value(bh) == yh && Value(bl) == yl && 0x1_0000_0000 * yh + yl == y
    requires Value(XorWord(ah, bh)) == zh && Value(XorWord(al, bl)) == zl && 0x1_0000_0000 * zh + zl == z
    ensures Xor64(x, y) == z
  {
    hide Value, XorWord;
    XorLongs(Long(ah, al), Long(bh, bl));
  }

  /** x ^ (x >> 47) is r; y is the shifted word, which has no high half. */
  lemma {:induction false} ShiftMixIs(ah: Word, al: Word, b: Word, xh: nat, xl: nat, y: nat, zl: nat, x: U64, r: U64)
    requires Value(ah) == xh && Value(al) == xl && 0x1_0000_0000 * xh + xl == x && x / 0x8000_0000_0000 == y
    requires Value(b) == y && Value(XorWord(al, b)) == zl && 0x1_0000_0000 * xh + zl == r
    ensures ShiftMix(x) == r
  {
    hide Value, XorWord, Xor, Pow2, Shr;
    EightDigits(xh, 0, al, b);
    XorNothing(xh);
    PowerOf47();
    ShrDivides(x, 47);
  }

  lemma {:induction false} XorNothing(x: nat)
    ensures Xor(x, 0) == x
  {
    if x != 0 { XorNothing(x / 2); }
  }

  lemma {:induction false} PowerOf47()
    ensures Pow2(47) == 0x8000_0000_0000
  {
    hide Pow2;
    Powers();
    Pow2Sum(16, 16);
    Pow2Sum(32, 15);
  }

  /** A rotation by k is r; y1 and y2 are the two shifted parts, p is 2^k and q is 2^(64 - k). */
  lemma {:induction false} LongTurnIs(x: U64, k: nat, p: nat, q: nat, y1: nat, y2: nat, r: U64)
    requires 0 < k < 64 && p == Pow2(k) && q == Pow2(64 - k) && x / p == y1 && x * q % MOD == y2 && y1 + y2 == r
    ensures Rotate64(x, k) == r
  {
    hide Pow2, Rotate64;
    RotateMeansShifts(x, k);
  }

  lemma {:induction false} PowerOf(k: nat, a: nat, b: nat, p: nat, q: nat, r: nat)
    requires k == a + b && Pow2(a) == p && Pow2(b) == q && p * q == r
    ensures Pow2(k) == r
  {
    hide Pow2;
    Pow2Sum(a, b);
  }

  lemma {:induction false} LowPowers()
    ensures Pow2(20) == 0x100000 && Pow2(22) == 0x400000 && Pow2(25) == 0x2000000 && Pow2(27) == 0x8000000 && Pow2(29) == 0x20000000 && Pow2(30) == 0x40000000 && Pow2(31) == 0x80000000 && Pow2(33) == 0x200000000 && Pow2(34) == 0x400000000
  {
    hide Pow2;
    Powers();
    SmallPowers();
    PowerOf(20, 1, 19, 0x2, 0x80000, 0x100000);
    PowerOf(22, 1, 21, 0x2, 0x200000, 0x400000);
    PowerOf(25, 3, 22, 0x8, 0x400000, 0x2000000);
    PowerOf(27, 2, 25, 0x4, 0x2000000, 0x8000000);
    PowerOf(29, 2, 27, 0x4, 0x8000000, 0x20000000);
    PowerOf(30, 1, 29, 0x2, 0x20000000, 0x40000000);
    PowerOf(31, 1, 30, 0x2, 0x40000000, 0x80000000);
    PowerOf(33, 2, 31, 0x4, 0x80000000, 0x200000000);
    PowerOf(34, 1, 33, 0x2, 0x200000000, 0x400000000);
  }

  lemma {:induction false} HighPowers()
    ensures Pow2(35) == 0x800000000 && Pow2(37) == 0x2000000000 && Pow2(39) == 0x8000000000 && Pow2(42) == 0x40000000000 && Pow2(43) == 0x80000000000 && Pow2(44) == 0x100000000000 && Pow2(46) == 0x400000000000 && Pow2(49) == 0x2000000000000 && Pow2(53) == 0x20000000000000
  {
    hide Pow2;
    Powers();
    SmallPowers();
    LowPowers();
    PowerOf(35, 1, 34, 0x2, 0x400000000, 0x800000000);
    PowerOf(37, 2, 35, 0x4, 0x800000000, 0x2000000000);
    PowerOf(39, 2, 37, 0x4, 0x2000000000, 0x8000000000);
    PowerOf(42, 3, 39, 0x8, 0x8000000000, 0x40000000000);
    PowerOf(43, 1, 42, 0x2, 0x40000000000, 0x80000000000);
    PowerOf(44, 1, 43, 0x2, 0x80000000000, 0x100000000000);
    PowerOf(46, 2, 44, 0x4, 0x100000000000, 0x400000000000);
    PowerOf(49, 3, 46, 0x8, 0x400000000000, 0x2000000000000);
    PowerOf(53, 11, 42, 0x800, 0x40000000000, 0x20000000000000);
  }

  /** bswap_64 by its halves. */
  lemma {:induction false} LongSwapIs(x: U64, high: U32, low: U32, h: U32, l: U32, r: U64)
    requires x / 0x1_0000_0000 == high && x % 0x1_0000_0000 == low && City32.Bswap32(high) == h && City32.Bswap32(low) == l
    requires h + 0x1_0000_0000 * (l as int) == r
    ensures Bswap64(x) == r
  {
    hide City32.Bswap32;
  }

  // ----- Inputs -----

  /** The bytes a, a + 1, ..., n of them. */
  function Count(a: nat, n: nat): (s: seq<Byte>)
    requires a + n <= 256
    ensures |s| == n && forall i | 0 <= i < n :: s[i] == a + i
  {
    seq(n, i requires 0 <= i < n => a + i)
  }

  lemma {:induction false} CountFetch(a: nat, n: nat, k: nat)
    requires a + n <= 256 && k + 8 <= n
    ensures Fetch64(Count(a, n), k) == (a + k) * 0x0101_0101_0101_0101 + 0x0706_0504_0302_0100
  {
    hide Count;
  }

  lemma {:induction false} CountFetch32(a: nat, n: nat, k: nat)
    requires a + n <= 256 && k + 4 <= n
    ensures Fetch32(Count(a, n), k) == (a + k) * 0x0101_0101 + 0x0302_0100
  {
    hide Count;
  }

  // ----- CityHash64 -----

  lemma {:induction false} NoBytes()
    ensures CityHash64([]) == 0x9ae16a3b2f90404f
  {
  }

  lemma {:induction false} ThreeA()
    ensures Mul64(0x0000000000000100, 0x9ae16a3b2f90404f) == 0xe16a3b2f90404f00
    ensures Mul64(0x000000000000000b, 0xc3a5c85c97cb3127) == 0x681f9bfa85bb1cad
    ensures Mul64(0x8975a0d515fa4146, 0x9ae16a3b2f90404f) == 0x94a13d22e9eba49a
  {
  }

  lemma {:induction false} ThreeB()
    ensures Xor64(0xe16a3b2f90404f00, 0x681f9bfa85bb1cad) == 0x8975a0d515fb53ad
  {
    hide Xor64;
    LongXorIs(Hex(XE, X1, X6, XA, X3, XB, X2, XF), Hex(X9, X0, X4, X0, X4, XF, X0, X0),
              Hex(X6, X8, X1, XF, X9, XB, XF, XA), Hex(X8, X5, XB, XB, X1, XC, XA, XD),
              0xe16a3b2f, 0x90404f00, 0x681f9bfa, 0x85bb1cad, 0x8975a0d5, 0x15fb53ad, 0xe16a3b2f90404f00, 0x681f9bfa85bb1cad, 0x8975a0d515fb53ad);
  }

  lemma {:induction false} ThreeC()
    ensures ShiftMix(0x8975a0d515fb53ad) == 0x8975a0d515fa4146
  {
    hide ShiftMix;
    ShiftMixIs(Hex(X8, X9, X7, X5, XA, X0, XD, X5), Hex(X1, X5, XF, XB, X5, X3, XA, XD),
               Hex(X0, X0, X0, X1, X1, X2, XE, XB), 0x8975a0d5, 0x15fb53ad, 0x112eb, 0x15fa4146, 0x8975a0d515fb53ad, 0x8975a0d515fa4146);
  }

  lemma {:induction false} ThreeHash()
    ensures CityHash64(Count(0, 3)) == 0x94a13d22e9eba49a
  {
    hide Add64, Sub64, Mul64, Xor64, Rotate64, ShiftMix, Bswap64, FetchAll, Fetch64, Fetch32, Count;
    ThreeA();
    ThreeB();
    ThreeC();
  }

  lemma {:induction false} FiveA()
    ensures Add64(0x9ae16a3b2f90404f, 0x000000000000000a) == 0x9ae16a3b2f904059
    ensures Mul64(0x000000001c130a04, 0x9ae16a3b2f904059) == 0x95444786e35f7b64
    ensures Mul64(0x95444786e75d53ed, 0x9ae16a3b2f904059) == 0x438a58447cbd6d65
    ensures Mul64(0x438a58447cbdea71, 0x9ae16a3b2f904059) == 0xb4bfa9e87732c149
  {
  }

  lemma {:induction false} FiveB()
    ensures Xor64(0x0000000018100805, 0x0000000004030201) == 0x000000001c130a04
  {
    hide Xor64;
    LongXorIs(Hex(X0, X0, X0, X0, X0, X0, X0, X0), Hex(X1, X8, X1, X0, X0, X8, X0, X5),
              Hex(X0, X0, X0, X0, X0, X0, X0, X0), Hex(X0, X4, X0, X3, X0, X2, X0, X1),
              0x00000000, 0x18100805, 0x00000000, 0x04030201, 0x00000000, 0x1c130a04, 0x0000000018100805, 0x0000000004030201, 0x000000001c130a04);
  }

  lemma {:induction false} FiveC()
    ensures ShiftMix(0x95444786e35f7b64) == 0x95444786e35e51ec
  {
    hide ShiftMix;
    ShiftMixIs(Hex(X9, X5, X4, X4, X4, X7, X8, X6), Hex(XE, X3, X5, XF, X7, XB, X6, X4),
               Hex(X0, X0, X0, X1, X2, XA, X8, X8), 0x95444786, 0xe35f7b64, 0x12a88, 0xe35e51ec, 0x95444786e35f7b64, 0x95444786e35e51ec);
  }

  lemma {:induction false} FiveD()
    ensures Xor64(0x0000000004030201, 0x95444786e35e51ec) == 0x95444786e75d53ed
  {
    hide Xor64;
    LongXorIs(Hex(X0, X0, X0, X0, X0, X0, X0, X0), Hex(X0, X4, X0, X3, X0, X2, X0, X1),
              Hex(X9, X5, X4, X4, X4, X7, X8, X6), Hex(XE, X3, X5, XE, X5, X1, XE, XC),
              0x00000000, 0x04030201, 0x95444786, 0xe35e51ec, 0x95444786, 0xe75d53ed, 0x0000000004030201, 0x95444786e35e51ec, 0x95444786e75d53ed);
  }

  lemma {:induction false} FiveE()
    ensures ShiftMix(0x438a58447cbd6d65) == 0x438a58447cbdea71
  {
    hide ShiftMix;
    ShiftMixIs(Hex(X4, X3, X8, XA, X5, X8, X4, X4), Hex(X7, XC, XB, XD, X6, XD, X6, X5),
               Hex(X0, X0, X0, X0, X8, X7, X1, X4), 0x438a5844, 0x7cbd6d65, 0x08714, 0x7cbdea71, 0x438a58447cbd6d65, 0x438a58447cbdea71);
  }

  lemma {:induction false} FiveHash()
    ensures CityHash64(Count(0, 5)) == 0xb4bfa9e87732c149
  {
    hide Add64, Sub64, Mul64, Xor64, Rotate64, ShiftMix, Bswap64, FetchAll, Fetch64, Fetch32, Count;
    CountFetch32(0, 5, 0);
    CountFetch32(0, 5, 1);
    FiveA();
    FiveB();
    FiveC();
    FiveD();
    FiveE();
  }

  lemma {:induction false} Eleven64Words()
    ensures FetchAll(Count(0, 11), Offsets8to16(11)) == [0x0706050403020100, 0x0a09080706050403]
  {
    hide Fetch64, Count;
    CountFetch(0, 11, 0);
    CountFetch(0, 11, 3);
  }

  lemma {:induction false} Eleven64A()
    ensures Add64(0x9ae16a3b2f90404f, 0x0000000000000016) == 0x9ae16a3b2f904065
    ensures Add64(0x0706050403020100, 0x9ae16a3b2f90404f) == 0xa1e76f3f3292414f
    ensures Mul64(0x3830282018504840, 0x9ae16a3b2f904065) == 0x84376bea0dbc8140
    ensures Add64(0x84376bea0dbc8140, 0xa1e76f3f3292414f) == 0x261edb29404ec28f
    ensures Add64(0x4920a7d0f3b79f99, 0x0a09080706050403) == 0x5329afd7f9bca39c
    ensures Mul64(0x5329afd7f9bca39c, 0x9ae16a3b2f904065) == 0x1a12c7be5c138c8c
    ensures Mul64(0x3c0c1c971c5d4e03, 0x9ae16a3b2f904065) == 0x15935d34f300872f
    ensures Mul64(0x0f819a8aaf132085, 0x9ae16a3b2f904065) == 0xc4b032dd907d1479
  {
  }

  lemma {:induction false} Eleven64B()
    ensures Mul64(0xc4b032dd907c9d19, 0x9ae16a3b2f904065) == 0xf3212b3c1d803add
  {
  }

  lemma {:induction false} Eleven64C()
    ensures Rotate64(0x0a09080706050403, 37) == 0x3830282018504840
    ensures Rotate64(0xa1e76f3f3292414f, 25) == 0x4920a7d0f3b79f99
  {
    hide Rotate64, Pow2;
    Powers();
    LowPowers();
    HighPowers();
    LongTurnIs(0x0a09080706050403, 37, 0x2000000000, 0x8000000, 0x0000000000504840, 0x3830282018000000, 0x3830282018504840);
    LongTurnIs(0xa1e76f3f3292414f, 25, 0x2000000, 0x8000000000, 0x00000050f3b79f99, 0x4920a78000000000, 0x4920a7d0f3b79f99);
  }

  lemma {:induction false} Eleven64D()
    ensures Xor64(0x261edb29404ec28f, 0x1a12c7be5c138c8c) == 0x3c0c1c971c5d4e03
  {
    hide Xor64;
    LongXorIs(Hex(X2, X6, X1, XE, XD, XB, X2, X9), Hex(X4, X0, X4, XE, XC, X2, X8, XF),
              Hex(X1, XA, X1, X2, XC, X7, XB, XE), Hex(X5, XC, X1, X3, X8, XC, X8, XC),
              0x261edb29, 0x404ec28f, 0x1a12c7be, 0x5c138c8c, 0x3c0c1c97, 0x1c5d4e03, 0x261edb29404ec28f, 0x1a12c7be5c138c8c, 0x3c0c1c971c5d4e03);
  }

  lemma {:induction false} Eleven64E()
    ensures ShiftMix(0x15935d34f300872f) == 0x15935d34f300ac09
  {
    hide ShiftMix;
    ShiftMixIs(Hex(X1, X5, X9, X3, X5, XD, X3, X4), Hex(XF, X3, X0, X0, X8, X7, X2, XF),
               Hex(X0, X0, X0, X0, X2, XB, X2, X6), 0x15935d34, 0xf300872f, 0x02b26, 0xf300ac09, 0x15935d34f300872f, 0x15935d34f300ac09);
  }

  lemma {:induction false} Eleven64F()
    ensures Xor64(0x1a12c7be5c138c8c, 0x15935d34f300ac09) == 0x0f819a8aaf132085
  {
    hide Xor64;
    LongXorIs(Hex(X1, XA, X1, X2, XC, X7, XB, XE), Hex(X5, XC, X1, X3, X8, XC, X8, XC),
              Hex(X1, X5, X9, X3, X5, XD, X3, X4), Hex(XF, X3, X0, X0, XA, XC, X0, X9),
              0x1a12c7be, 0x5c138c8c, 0x15935d34, 0xf300ac09, 0x0f819a8a, 0xaf132085, 0x1a12c7be5c138c8c, 0x15935d34f300ac09, 0x0f819a8aaf132085);
  }

  lemma {:induction false} Eleven64G()
    ensures ShiftMix(0xc4b032dd907d1479) == 0xc4b032dd907c9d19
  {
    hide ShiftMix;
    ShiftMixIs(Hex(XC, X4, XB, X0, X3, X2, XD, XD), Hex(X9, X0, X7, XD, X1, X4, X7, X9),
               Hex(X0, X0, X0, X1, X8, X9, X6, X0), 0xc4b032dd, 0x907d1479, 0x18960, 0x907c9d19, 0xc4b032dd907d1479, 0xc4b032dd907c9d19);
  }

  lemma {:induction false} Eleven64Hash()
    ensures CityHash64(Count(0, 11)) == 0xf3212b3c1d803add
  {
    hide Add64, Sub64, Mul64, Xor64, Rotate64, ShiftMix, Bswap64, FetchAll, Fetch64, Fetch32, Count;
    Eleven64Words();
    Eleven64A();
    Eleven64B();
    Eleven64C();
    Eleven64D();
    Eleven64E();
    Eleven64F();
    Eleven64G();
  }

  lemma {:induction false} TwentyNineWords()
    ensures FetchAll(Count(0, 29), Offsets17to32(29)) == [0x0706050403020100, 0x0f0e0d0c0b0a0908, 0x1c1b1a1918171615, 0x14131211100f0e0d]
  {
    hide Fetch64, Count;
    CountFetch(0, 29, 0);
    CountFetch(0, 29, 8);
    CountFetch(0, 29, 21);
    CountFetch(0, 29, 13);
  }

  lemma {:induction false} TwentyNineA()
    ensures Add64(0x9ae16a3b2f90404f, 0x000000000000003a) == 0x9ae16a3b2f904089
    ensures Mul64(0x0706050403020100, 0xb492b66fbe98f273) == 0x19a3c093d6d87300
    ensures Mul64(0x1c1b1a1918171615, 0x9ae16a3b2f904089) == 0x417cd054f0b0113d
    ensures Mul64(0x14131211100f0e0d, 0x9ae16a3b2f90404f) == 0x5ca9425302789603
    ensures Add64(0x19a3c093d6d87300, 0x0f0e0d0c0b0a0908) == 0x28b1cd9fe1e27c08
    ensures Add64(0xb3fc3c4f81051639, 0xc2c044f505f34153) == 0x76bc814486f8578c
    ensures Add64(0x76bc814486f8578c, 0x5ca9425302789603) == 0xd365c3978970ed8f
    ensures Add64(0x0f0e0d0c0b0a0908, 0x9ae16a3b2f90404f) == 0xa9ef77473a9a4957
  {
  }

  lemma {:induction false} TwentyNineB()
    ensures Add64(0x19a3c093d6d87300, 0x9255ea7bddd1cea6) == 0xabf9ab0fb4aa41a6
    ensures Add64(0xabf9ab0fb4aa41a6, 0x417cd054f0b0113d) == 0xed767b64a55a52e3
    ensures Mul64(0x3e13b8f32c2abf6c, 0x9ae16a3b2f904089) == 0xebb84c41d37b70cc
    ensures Mul64(0x06ce37257620f55f, 0x9ae16a3b2f904089) == 0xc598430feb6b0fd7
    ensures Mul64(0xc598430feb6a84e7, 0x9ae16a3b2f904089) == 0x96081fedc82adf9f
  {
  }

  lemma {:induction false} TwentyNineC()
    ensures Rotate64(0x28b1cd9fe1e27c08, 43) == 0xb3fc3c4f81051639
    ensures Rotate64(0x417cd054f0b0113d, 30) == 0xc2c044f505f34153
    ensures Rotate64(0xa9ef77473a9a4957, 18) == 0x9255ea7bddd1cea6
  {
    hide Rotate64, Pow2;
    Powers();
    LowPowers();
    HighPowers();
    LongTurnIs(0x28b1cd9fe1e27c08, 43, 0x80000000000, 0x200000, 0x0000000000051639, 0xb3fc3c4f81000000, 0xb3fc3c4f81051639);
    LongTurnIs(0x417cd054f0b0113d, 30, 0x40000000, 0x400000000, 0x0000000105f34153, 0xc2c044f400000000, 0xc2c044f505f34153);
    LongTurnIs(0xa9ef77473a9a4957, 18, 0x40000, 0x400000000000, 0x00002a7bddd1cea6, 0x9255c00000000000, 0x9255ea7bddd1cea6);
  }

  lemma {:induction false} TwentyNineD()
    ensures Xor64(0xd365c3978970ed8f, 0xed767b64a55a52e3) == 0x3e13b8f32c2abf6c
  {
    hide Xor64;
    LongXorIs(Hex(XD, X3, X6, X5, XC, X3, X9, X7), Hex(X8, X9, X7, X0, XE, XD, X8, XF),
              Hex(XE, XD, X7, X6, X7, XB, X6, X4), Hex(XA, X5, X5, XA, X5, X2, XE, X3),
              0xd365c397, 0x8970ed8f, 0xed767b64, 0xa55a52e3, 0x3e13b8f3, 0x2c2abf6c, 0xd365c3978970ed8f, 0xed767b64a55a52e3, 0x3e13b8f32c2abf6c);
  }

  lemma {:induction false} TwentyNineE()
    ensures ShiftMix(0xebb84c41d37b70cc) == 0xebb84c41d37aa7bc
  {
    hide ShiftMix;
    ShiftMixIs(Hex(XE, XB, XB, X8, X4, XC, X4, X1), Hex(XD, X3, X7, XB, X7, X0, XC, XC),
               Hex(X0, X0, X0, X1, XD, X7, X7, X0), 0xebb84c41, 0xd37b70cc, 0x1d770, 0xd37aa7bc, 0xebb84c41d37b70cc, 0xebb84c41d37aa7bc);
  }

  lemma {:induction false} TwentyNineF()
    ensures Xor64(0xed767b64a55a52e3, 0xebb84c41d37aa7bc) == 0x06ce37257620f55f
  {
    hide Xor64;
    LongXorIs(Hex(XE, XD, X7, X6, X7, XB, X6, X4), Hex(XA, X5, X5, XA, X5, X2, XE, X3),
              Hex(XE, XB, XB, X8, X4, XC, X4, X1), Hex(XD, X3, X7, XA, XA, X7, XB, XC),
              0xed767b64, 0xa55a52e3, 0xebb84c41, 0xd37aa7bc, 0x06ce3725, 0x7620f55f, 0xed767b64a55a52e3, 0xebb84c41d37aa7bc, 0x06ce37257620f55f);
  }

  lemma {:induction false} TwentyNineG()
    ensures ShiftMix(0xc598430feb6b0fd7) == 0xc598430feb6a84e7
  {
    hide ShiftMix;
    ShiftMixIs(Hex(XC, X5, X9, X8, X4, X3, X0, XF), Hex(XE, XB, X6, XB, X0, XF, XD, X7),
               Hex(X0, X0, X0, X1, X8, XB, X3, X0), 0xc598430f, 0xeb6b0fd7, 0x18b30, 0xeb6a84e7, 0xc598430feb6b0fd7, 0xc598430feb6a84e7);
  }

  lemma {:induction false} TwentyNineHash()
    ensures CityHash64(Count(0, 29)) == 0x96081fedc82adf9f
  {
    hide Add64, Sub64, Mul64, Xor64, Rotate64, ShiftMix, Bswap64, FetchAll, Fetch64, Fetch32, Count;
    TwentyNineWords();
    TwentyNineA();
    TwentyNineB();
    TwentyNineC();
    TwentyNineD();
    TwentyNineE();
    TwentyNineF();
    TwentyNineG();
  }

  lemma {:induction false} FortyWords()
    ensures FetchAll(Count(0, 40), Offsets33to64(40)) == [0x0706050403020100, 0x0f0e0d0c0b0a0908, 0x1716151413121110, 0x0f0e0d0c0b0a0908, 0x1716151413121110, 0x1f1e1d1c1b1a1918, 0x2726252423222120, 0x1f1e1d1c1b1a1918]
  {
    hide Fetch64, Count;
    CountFetch(0, 40, 0);
    CountFetch(0, 40, 8);
    CountFetch(0, 40, 16);
    CountFetch(0, 40, 8);
    CountFetch(0, 40, 16);
    CountFetch(0, 40, 24);
    CountFetch(0, 40, 32);
    CountFetch(0, 40, 24);
  }

  lemma {:induction false} FortyA()
    ensures Add64(0x9ae16a3b2f90404f, 0x0000000000000050) == 0x9ae16a3b2f90409f
    ensures Mul64(0x0706050403020100, 0x9ae16a3b2f90404f) == 0xa1cbd74cfdde4f00
    ensures Mul64(0x1716151413121110, 0x9ae16a3b2f90404f) == 0xaf2b1ff1efd743f0
    ensures Mul64(0x1f1e1d1c1b1a1918, 0x0000000000000009) == 0x180f05fcf3eae1d8
    ensures Mul64(0x1f1e1d1c1b1a1918, 0x9ae16a3b2f90409f) == 0xef43dd0ce0fb95e8
    ensures Add64(0xa1cbd74cfdde4f00, 0x2726252423222120) == 0xc8f1fc7121007020
    ensures Add64(0x2c2824203c383430, 0x1716151413121110) == 0x433e39344f4a4540
    ensures Mul64(0x433e39344f4a4540, 0x0000000000000009) == 0x5d3002d6c99c6f40
  {
  }

  lemma {:induction false} FortyB()
    ensures Add64(0x8e24200e04191e3f, 0x5d3002d6c99c6f40) == 0xeb5422e4cdb58d7f
    ensures Add64(0xc7fff17d2a0a7928, 0x180f05fcf3eae1d8) == 0xe00ef77a1df55b00
    ensures Add64(0xe00ef77a1df55b00, 0x0000000000000001) == 0xe00ef77a1df55b01
    ensures Add64(0xeb5422e4cdb58d7f, 0xe00ef77a1df55b01) == 0xcb631a5eebaae880
    ensures Mul64(0xcb631a5eebaae880, 0x9ae16a3b2f90409f) == 0xc8f6a23161466780
    ensures Add64(0x8067466131a2f6c8, 0xef43dd0ce0fb95e8) == 0x6fab236e129e8cb0
    ensures Add64(0xaf2b1ff1efd743f0, 0x180f05fcf3eae1d8) == 0xc73a25eee3c225c8
    ensures Add64(0x7bb8f0897231ce89, 0x1716151413121110) == 0x92cf059d8543df99
  {
  }

  lemma {:induction false} FortyC()
    ensures Add64(0xe00ef77a1df55b01, 0x6fab236e129e8cb0) == 0x4fba1ae83093e7b1
    ensures Mul64(0x4fba1ae83093e7b1, 0x9ae16a3b2f90409f) == 0x5b6dece1f85926ef
    ensures Add64(0xef2659f8e1ec6d5b, 0x2726252423222120) == 0x164c7f1d050e8e7b
    ensures Mul64(0x164c7f1d050e8e7b, 0x9ae16a3b2f90409f) == 0x36ff7cfb81d93e65
    ensures Add64(0xc73a25eee3c225c8, 0x1716151413121110) == 0xde503b02f6d436d8
    ensures Add64(0x92cf059d8543df99, 0xde503b02f6d436d8) == 0x711f40a07c181671
    ensures Mul64(0x711f40a07c181671, 0x9ae16a3b2f90409f) == 0x29c872697722302f
    ensures Add64(0x29c872697722302f, 0x36ff7cfb81d93e65) == 0x60c7ef64f8fb6e94
  {
  }

  lemma {:induction false} FortyD()
    ensures Add64(0x946efbf864efc760, 0x0f0e0d0c0b0a0908) == 0xa37d09046ff9d068
    ensures Add64(0xde503b02f6d436d8, 0xa37d09046ff9d068) == 0x81cd440766ce0740
    ensures Mul64(0x81cd440766ce0740, 0x9ae16a3b2f90409f) == 0x6f44ed452fc680c0
    ensures Add64(0x6f44ed452fc680c0, 0x0f0e0d0c0b0a0908) == 0x7e52fa513ad089c8
    ensures Add64(0x7e52fa513ad089c8, 0xef43dd0ce0fb95e8) == 0x6d96d75e1bcc1fb0
    ensures Mul64(0x6d96d75e1bccc49d, 0x9ae16a3b2f90409f) == 0xa428d7dce0a55d83
    ensures Add64(0xa428d7dce0a55d83, 0x92cf059d8543df99) == 0x36f7dd7a65e93d1c
  {
  }

  lemma {:induction false} FortyE()
    ensures Rotate64(0xc8f1fc7121007020, 43) == 0x8e24200e04191e3f
    ensures Rotate64(0x0f0e0d0c0b0a0908, 30) == 0x2c2824203c383430
    ensures Rotate64(0xc73a25eee3c225c8, 42) == 0x7bb8f0897231ce89
  {
    hide Rotate64, Pow2;
    Powers();
    LowPowers();
    HighPowers();
    LongTurnIs(0xc8f1fc7121007020, 43, 0x80000000000, 0x200000, 0x0000000000191e3f, 0x8e24200e04000000, 0x8e24200e04191e3f);
    LongTurnIs(0x0f0e0d0c0b0a0908, 30, 0x40000000, 0x400000000, 0x000000003c383430, 0x2c28242000000000, 0x2c2824203c383430);
    LongTurnIs(0xc73a25eee3c225c8, 42, 0x40000000000, 0x400000, 0x000000000031ce89, 0x7bb8f08972000000, 0x7bb8f0897231ce89);
  }

  lemma {:induction false} FortyF()
    ensures Bswap64(0xc8f6a23161466780) == 0x8067466131a2f6c8
  {
    hide Bswap64, City32.Bswap32;
    BswapIs(49, 162, 246, 200, 0xc8f6a231, 0x31a2f6c8);
    BswapIs(128, 103, 70, 97, 0x61466780, 0x80674661);
    LongSwapIs(0xc8f6a23161466780, 0xc8f6a231, 0x61466780, 0x31a2f6c8, 0x80674661, 0x8067466131a2f6c8);
  }

  lemma {:induction false} FortyG()
    ensures Bswap64(0x5b6dece1f85926ef) == 0xef2659f8e1ec6d5b
  {
    hide Bswap64, City32.Bswap32;
    BswapIs(225, 236, 109, 91, 0x5b6dece1, 0xe1ec6d5b);
    BswapIs(239, 38, 89, 248, 0xf85926ef, 0xef2659f8);
    LongSwapIs(0x5b6dece1f85926ef, 0x5b6dece1, 0xf85926ef, 0xe1ec6d5b, 0xef2659f8, 0xef2659f8e1ec6d5b);
  }

  lemma {:induction false} FortyH()
    ensures Bswap64(0x60c7ef64f8fb6e94) == 0x946efbf864efc760
  {
    hide Bswap64, City32.Bswap32;
    BswapIs(100, 239, 199, 96, 0x60c7ef64, 0x64efc760);
    BswapIs(148, 110, 251, 248, 0xf8fb6e94, 0x946efbf8);
    LongSwapIs(0x60c7ef64f8fb6e94, 0x60c7ef64, 0xf8fb6e94, 0x64efc760, 0x946efbf8, 0x946efbf864efc760);
  }

  lemma {:induction false} FortyI()
    ensures Xor64(0xc8f1fc7121007020, 0x0f0e0d0c0b0a0908) == 0xc7fff17d2a0a7928
  {
    hide Xor64;
    LongXorIs(Hex(XC, X8, XF, X1, XF, XC, X7, X1), Hex(X2, X1, X0, X0, X7, X0, X2, X0),
              Hex(X0, XF, X0, XE, X0, XD, X0, XC), Hex(X0, XB, X0, XA, X0, X9, X0, X8),
              0xc8f1fc71, 0x21007020, 0x0f0e0d0c, 0x0b0a0908, 0xc7fff17d, 0x2a0a7928, 0xc8f1fc7121007020, 0x0f0e0d0c0b0a0908, 0xc7fff17d2a0a7928);
  }

  lemma {:induction false} FortyJ()
    ensures ShiftMix(0x6d96d75e1bcc1fb0) == 0x6d96d75e1bccc49d
  {
    hide ShiftMix;
    ShiftMixIs(Hex(X6, XD, X9, X6, XD, X7, X5, XE), Hex(X1, XB, XC, XC, X1, XF, XB, X0),
               Hex(X0, X0, X0, X0, XD, XB, X2, XD), 0x6d96d75e, 0x1bcc1fb0, 0x0db2d, 0x1bccc49d, 0x6d96d75e1bcc1fb0, 0x6d96d75e1bccc49d);
  }

  lemma {:induction false} FortyHash()
    ensures CityHash64(Count(0, 40)) == 0x36f7dd7a65e93d1c
  {
    hide Add64, Sub64, Mul64, Xor64, Rotate64, ShiftMix, Bswap64, FetchAll, Fetch64, Fetch32, Count;
    FortyWords();
    FortyA();
    FortyB();
    FortyC();
    FortyD();
    FortyE();
    FortyF();
    FortyG();
    FortyH();
    FortyI();
    FortyJ();
  }

  lemma {:induction false} SeventyStartWords()
    ensures FetchAll(Count(0, 70), StartOffsets(70)) == [0x2524232221201f1e, 0x3d3c3b3a39383736, 0x1514131211100f0e, 0x1d1c1b1a19181716, 0x3534333231302f2e, 0x0d0c0b0a09080706, 0x2d2c2b2a29282726, 0x4544434241403f3e, 0x0706050403020100]
  {
    hide Fetch64, Count;
    CountFetch(0, 70, 30);
    CountFetch(0, 70, 54);
    CountFetch(0, 70, 14);
    CountFetch(0, 70, 22);
    CountFetch(0, 70, 46);
    CountFetch(0, 70, 6);
    CountFetch(0, 70, 38);
    CountFetch(0, 70, 62);
    CountFetch(0, 70, 0);
  }

  lemma {:induction false} SeventyStartA()
    ensures Add64(0x3d3c3b3a39383736, 0x1514131211100f0e) == 0x52504e4c4a484644
    ensures Add64(0x1d1c1b1a19181716, 0x0000000000000046) == 0x1d1c1b1a1918175c
    ensures Mul64(0x2828282828283872, 0x9ddfea08eb382d69) == 0x475533b4895b30c2
    ensures Mul64(0x72610086b86b9146, 0x9ddfea08eb382d69) == 0x4fc481bf95f7e3b6
    ensures Mul64(0x4fc481bf95f77c3f, 0x9ddfea08eb382d69) == 0x48295a1a062108d7
    ensures Add64(0x0000000000000046, 0x0d0c0b0a09080706) == 0x0d0c0b0a0908074c
    ensures Add64(0x48295a1a062108d7, 0x0d0c0b0a0908074c) == 0x553565240f291023
    ensures Add64(0x553565240f291023, 0x2524232221201f1e) == 0x7a59884630492f41
  {
  }

  lemma {:induction false} SeventyStartB()
    ensures Add64(0x0d0c0b0a0908074c, 0x1514131211100f0e) == 0x22201e1c1a18165a
    ensures Add64(0x22201e1c1a18165a, 0x1d1c1b1a19181716) == 0x3f3c393633302d70
    ensures Add64(0x3f3c393633302d70, 0x2524232221201f1e) == 0x64605c5854504c8e
    ensures Add64(0x497a0bd2cc423182, 0x93633302d703f3c3) == 0xdcdd3ed5a3462545
    ensures Add64(0xdcdd3ed5a3462545, 0x0d0c0b0a0908074c) == 0xe9e949dfac4e2c91
    ensures Add64(0x52504e4c4a484644, 0xb492b66fbe98f273) == 0x06e304bc08e138b7
    ensures Add64(0x06e304bc08e138b7, 0x2d2c2b2a29282726) == 0x340f2fe632095fdd
    ensures Add64(0x2524232221201f1e, 0x340f2fe632095fdd) == 0x5933530853297efb
  {
  }

  lemma {:induction false} SeventyStartC()
    ensures Add64(0x5933530853297efb, 0x4544434241403f3e) == 0x9e77964a9469be39
    ensures Add64(0x340f2fe632095fdd, 0x3534333231302f2e) == 0x6943631863398f0b
    ensures Add64(0x6943631863398f0b, 0x3d3c3b3a39383736) == 0xa67f9e529c71c641
    ensures Add64(0xa67f9e529c71c641, 0x4544434241403f3e) == 0xebc3e194ddb2057f
    ensures Add64(0x4df1ccf3bcb254a3, 0xe529c71c641a67f9) == 0x331b941020ccbc9c
    ensures Add64(0x331b941020ccbc9c, 0x340f2fe632095fdd) == 0x672ac3f652d61c79
    ensures Mul64(0x2524232221201f1e, 0xb492b66fbe98f273) == 0x13745fd1fca8567a
    ensures Add64(0x13745fd1fca8567a, 0x0706050403020100) == 0x1a7a64d5ffaa577a
  {
  }

  lemma {:induction false} SeventyStartD()
    ensures Rotate64(0x7a59884630492f41, 21) == 0x497a0bd2cc423182
    ensures Rotate64(0x3f3c393633302d70, 44) == 0x93633302d703f3c3
    ensures Rotate64(0x9e77964a9469be39, 21) == 0x4df1ccf3bcb254a3
  {
    hide Rotate64, Pow2;
    Powers();
    LowPowers();
    HighPowers();
    LongTurnIs(0x7a59884630492f41, 21, 0x200000, 0x80000000000, 0x000003d2cc423182, 0x497a080000000000, 0x497a0bd2cc423182);
    LongTurnIs(0x3f3c393633302d70, 44, 0x100000000000, 0x100000, 0x000000000003f3c3, 0x93633302d7000000, 0x93633302d703f3c3);
    LongTurnIs(0x9e77964a9469be39, 21, 0x200000, 0x80000000000, 0x000004f3bcb254a3, 0x4df1c80000000000, 0x4df1ccf3bcb254a3);
  }

  lemma {:induction false} SeventyStartE()
    ensures Rotate64(0xa67f9e529c71c641, 44) == 0xe529c71c641a67f9
  {
    hide Rotate64, Pow2;
    Powers();
    LowPowers();
    HighPowers();
    LongTurnIs(0xa67f9e529c71c641, 44, 0x100000000000, 0x100000, 0x00000000000a67f9, 0xe529c71c64100000, 0xe529c71c641a67f9);
  }

  lemma {:induction false} SeventyStartF()
    ensures Xor64(0x1d1c1b1a1918175c, 0x3534333231302f2e) == 0x2828282828283872
  {
    hide Xor64;
    LongXorIs(Hex(X1, XD, X1, XC, X1, XB, X1, XA), Hex(X1, X9, X1, X8, X1, X7, X5, XC),
              Hex(X3, X5, X3, X4, X3, X3, X3, X2), Hex(X3, X1, X3, X0, X2, XF, X2, XE),
              0x1d1c1b1a, 0x1918175c, 0x35343332, 0x31302f2e, 0x28282828, 0x28283872, 0x1d1c1b1a1918175c, 0x3534333231302f2e, 0x2828282828283872);
  }

  lemma {:induction false} SeventyStartG()
    ensures ShiftMix(0x475533b4895b30c2) == 0x475533b4895bbe68
  {
    hide ShiftMix;
    ShiftMixIs(Hex(X4, X7, X5, X5, X3, X3, XB, X4), Hex(X8, X9, X5, XB, X3, X0, XC, X2),
               Hex(X0, X0, X0, X0, X8, XE, XA, XA), 0x475533b4, 0x895b30c2, 0x08eaa, 0x895bbe68, 0x475533b4895b30c2, 0x475533b4895bbe68);
  }

  lemma {:induction false} SeventyStartH()
    ensures Xor64(0x3534333231302f2e, 0x475533b4895bbe68) == 0x72610086b86b9146
  {
    hide Xor64;
    LongXorIs(Hex(X3, X5, X3, X4, X3, X3, X3, X2), Hex(X3, X1, X3, X0, X2, XF, X2, XE),
              Hex(X4, X7, X5, X5, X3, X3, XB, X4), Hex(X8, X9, X5, XB, XB, XE, X6, X8),
              0x35343332, 0x31302f2e, 0x475533b4, 0x895bbe68, 0x72610086, 0xb86b9146, 0x3534333231302f2e, 0x475533b4895bbe68, 0x72610086b86b9146);
  }

  lemma {:induction false} SeventyStartI()
    ensures ShiftMix(0x4fc481bf95f7e3b6) == 0x4fc481bf95f77c3f
  {
    hide ShiftMix;
    ShiftMixIs(Hex(X4, XF, XC, X4, X8, X1, XB, XF), Hex(X9, X5, XF, X7, XE, X3, XB, X6),
               Hex(X0, X0, X0, X0, X9, XF, X8, X9), 0x4fc481bf, 0x95f7e3b6, 0x09f89, 0x95f77c3f, 0x4fc481bf95f7e3b6, 0x4fc481bf95f77c3f);
  }

  lemma {:induction false} SeventyStarts()
    ensures Start(Count(0, 70)) == State(0x1a7a64d5ffaa577a, 0x52504e4c4a484644, 0x48295a1a062108d7, Pair(0x64605c5854504c8e, 0xe9e949dfac4e2c91), Pair(0xebc3e194ddb2057f, 0x672ac3f652d61c79))
  {
    hide Add64, Sub64, Mul64, Xor64, Rotate64, ShiftMix, Bswap64, FetchAll, Fetch64, Fetch32, Count;
    SeventyStartWords();
    SeventyStartA();
    SeventyStartB();
    SeventyStartC();
    SeventyStartD();
    SeventyStartE();
    SeventyStartF();
    SeventyStartG();
    SeventyStartH();
    SeventyStartI();
  }

  lemma {:induction false} SeventyBlockWords()
    ensures FetchAll(Count(0, 70), BlockOffsets(0)) == [0x0706050403020100, 0x0f0e0d0c0b0a0908, 0x1716151413121110, 0x1f1e1d1c1b1a1918, 0x2726252423222120, 0x2f2e2d2c2b2a2928, 0x3736353433323130, 0x3f3e3d3c3b3a3938]
  {
    hide Fetch64, Count;
    CountFetch(0, 70, 0);
    CountFetch(0, 70, 8);
    CountFetch(0, 70, 16);
    CountFetch(0, 70, 24);
    CountFetch(0, 70, 32);
    CountFetch(0, 70, 40);
    CountFetch(0, 70, 48);
    CountFetch(0, 70, 56);
  }

  lemma {:induction false} SeventyBlockA()
    ensures Add64(0x1a7a64d5ffaa577a, 0x52504e4c4a484644) == 0x6ccab32249f29dbe
    ensures Add64(0x6ccab32249f29dbe, 0x64605c5854504c8e) == 0xd12b0f7a9e42ea4c
    ensures Add64(0xd12b0f7a9e42ea4c, 0x0f0e0d0c0b0a0908) == 0xe0391c86a94cf354
    ensures Mul64(0x354a679aa701c8e4, 0xb492b66fbe98f273) == 0x22c36b5d3514c66c
    ensures Add64(0x52504e4c4a484644, 0xe9e949dfac4e2c91) == 0x3c39982bf69672d5
    ensures Add64(0x3c39982bf69672d5, 0x3736353433323130) == 0x736fcd6029c8a405
    ensures Mul64(0x580a7229015cdbf3, 0xb492b66fbe98f273) == 0x8c2fe67356ea8429
    ensures Add64(0x64605c5854504c8e, 0x2f2e2d2c2b2a2928) == 0x938e89847f7a75b6
  {
  }

  lemma {:induction false} SeventyBlockB()
    ensures Add64(0x8c2fe67356ea8429, 0x938e89847f7a75b6) == 0x1fbe6ff7d664f9df
    ensures Add64(0x48295a1a062108d7, 0xebc3e194ddb2057f) == 0x33ed3baee3d30e56
    ensures Mul64(0x71e9872b19f69dd7, 0xb492b66fbe98f273) == 0xf34e34b414a62595
    ensures Mul64(0xe9e949dfac4e2c91, 0xb492b66fbe98f273) == 0x22985cb961571723
    ensures Add64(0x45e9a8ab67c2da15, 0xebc3e194ddb2057f) == 0x31ad8a404574df94
    ensures Add64(0x22985cb961571723, 0x0706050403020100) == 0x299e61bd64591823
    ensures Add64(0x31ad8a404574df94, 0x299e61bd64591823) == 0x5b4bebfda9cdf7b7
    ensures Add64(0x5b4bebfda9cdf7b7, 0x1f1e1d1c1b1a1918) == 0x7a6a0919c4e810cf
  {
  }

  lemma {:induction false} SeventyBlockC()
    ensures Add64(0x299e61bd64591823, 0x0f0e0d0c0b0a0908) == 0x38ac6ec96f63212b
    ensures Add64(0x38ac6ec96f63212b, 0x1716151413121110) == 0x4fc283dd8275323b
    ensures Add64(0x4fc283dd8275323b, 0x1f1e1d1c1b1a1918) == 0x6ee0a0f99d8f4b53
    ensures Add64(0x40867bd35048ce27, 0x3dd8275323b4fc28) == 0x7e5ea32673fdca4f
    ensures Add64(0x7e5ea32673fdca4f, 0x299e61bd64591823) == 0xa7fd04e3d856e272
    ensures Add64(0xf34e34b414a62595, 0x672ac3f652d61c79) == 0x5a78f8aa677c420e
    ensures Add64(0x1fbe6ff7d664f9df, 0x1716151413121110) == 0x36d4850be9770aef
    ensures Add64(0x5a78f8aa677c420e, 0x2726252423222120) == 0x819f1dce8a9e632e
  {
  }

  lemma {:induction false} SeventyBlockD()
    ensures Add64(0x36d4850be9770aef, 0x819f1dce8a9e632e) == 0xb873a2da74156e1d
    ensures Add64(0xb873a2da74156e1d, 0x3f3e3d3c3b3a3938) == 0xf7b1e016af4fa755
    ensures Add64(0x819f1dce8a9e632e, 0x2f2e2d2c2b2a2928) == 0xb0cd4afab5c88c56
    ensures Add64(0xb0cd4afab5c88c56, 0x3736353433323130) == 0xe803802ee8fabd86
    ensures Add64(0xe803802ee8fabd86, 0x3f3e3d3c3b3a3938) == 0x2741bd6b2434f6be
    ensures Add64(0x7d3aafbd8f00b57a, 0x02ee8fabd86e8038) == 0x80293f69676f35b2
    ensures Add64(0x80293f69676f35b2, 0x819f1dce8a9e632e) == 0x01c85d37f20d98e0
  {
  }

  lemma {:induction false} SeventyBlockE()
    ensures Rotate64(0xe0391c86a94cf354, 37) == 0x354a679aa701c8e4
    ensures Rotate64(0x736fcd6029c8a405, 42) == 0x580a7229015cdbf3
    ensures Rotate64(0x33ed3baee3d30e56, 33) == 0x71e9872b19f69dd7
  {
    hide Rotate64, Pow2;
    Powers();
    LowPowers();
    HighPowers();
    LongTurnIs(0xe0391c86a94cf354, 37, 0x2000000000, 0x8000000, 0x000000000701c8e4, 0x354a679aa0000000, 0x354a679aa701c8e4);
    LongTurnIs(0x736fcd6029c8a405, 42, 0x40000000000, 0x400000, 0x00000000001cdbf3, 0x580a722901400000, 0x580a7229015cdbf3);
    LongTurnIs(0x33ed3baee3d30e56, 33, 0x200000000, 0x80000000, 0x0000000019f69dd7, 0x71e9872b00000000, 0x71e9872b19f69dd7);
  }

  lemma {:induction false} SeventyBlockF()
    ensures Rotate64(0x7a6a0919c4e810cf, 21) == 0x40867bd35048ce27
    ensures Rotate64(0x4fc283dd8275323b, 44) == 0x3dd8275323b4fc28
    ensures Rotate64(0xf7b1e016af4fa755, 21) == 0x7d3aafbd8f00b57a
  {
    hide Rotate64, Pow2;
    Powers();
    LowPowers();
    HighPowers();
    LongTurnIs(0x7a6a0919c4e810cf, 21, 0x200000, 0x80000000000, 0x000003d35048ce27, 0x4086780000000000, 0x40867bd35048ce27);
    LongTurnIs(0x4fc283dd8275323b, 44, 0x100000000000, 0x100000, 0x000000000004fc28, 0x3dd8275323b00000, 0x3dd8275323b4fc28);
    LongTurnIs(0xf7b1e016af4fa755, 21, 0x200000, 0x80000000000, 0x000007bd8f00b57a, 0x7d3aa80000000000, 0x7d3aafbd8f00b57a);
  }

  lemma {:induction false} SeventyBlockG()
    ensures Rotate64(0xe803802ee8fabd86, 44) == 0x02ee8fabd86e8038
  {
    hide Rotate64, Pow2;
    Powers();
    LowPowers();
    HighPowers();
    LongTurnIs(0xe803802ee8fabd86, 44, 0x100000000000, 0x100000, 0x00000000000e8038, 0x02ee8fabd8600000, 0x02ee8fabd86e8038);
  }

  lemma {:induction false} SeventyBlockH()
    ensures Xor64(0x22c36b5d3514c66c, 0x672ac3f652d61c79) == 0x45e9a8ab67c2da15
  {
    hide Xor64;
    LongXorIs(Hex(X2, X2, XC, X3, X6, XB, X5, XD), Hex(X3, X5, X1, X4, XC, X6, X6, XC),
              Hex(X6, X7, X2, XA, XC, X3, XF, X6), Hex(X5, X2, XD, X6, X1, XC, X7, X9),
              0x22c36b5d, 0x3514c66c, 0x672ac3f6, 0x52d61c79, 0x45e9a8ab, 0x67c2da15, 0x22c36b5d3514c66c, 0x672ac3f652d61c79, 0x45e9a8ab67c2da15);
  }

  lemma {:induction false} SeventySteps()
    ensures BlockStep(State(0x1a7a64d5ffaa577a, 0x52504e4c4a484644, 0x48295a1a062108d7, Pair(0x64605c5854504c8e, 0xe9e949dfac4e2c91), Pair(0xebc3e194ddb2057f, 0x672ac3f652d61c79)), [0x0706050403020100, 0x0f0e0d0c0b0a0908, 0x1716151413121110, 0x1f1e1d1c1b1a1918, 0x2726252423222120, 0x2f2e2d2c2b2a2928, 0x3736353433323130, 0x3f3e3d3c3b3a3938]) == State(0xf34e34b414a62595, 0x1fbe6ff7d664f9df, 0x45e9a8ab67c2da15, Pair(0x6ee0a0f99d8f4b53, 0xa7fd04e3d856e272), Pair(0x2741bd6b2434f6be, 0x01c85d37f20d98e0))
  {
    hide Add64, Sub64, Mul64, Xor64, Rotate64, ShiftMix, Bswap64, FetchAll, Fetch64, Fetch32, Count;
    SeventyBlockA();
    SeventyBlockB();
    SeventyBlockC();
    SeventyBlockD();
    SeventyBlockE();
    SeventyBlockF();
    SeventyBlockG();
    SeventyBlockH();
  }

  lemma {:induction false} SeventyEndA()
    ensures Mul64(0x49a11d92b9bbbded, 0x9ddfea08eb382d69) == 0xe1cb75a6493b8f35
    ensures Mul64(0xc68ac8cd6d0eba1d, 0x9ddfea08eb382d69) == 0x1b1c2b66a7196ee5
    ensures Mul64(0x1b1c2b66a71958dd, 0x9ddfea08eb382d69) == 0x218f73804d5c4ba5
    ensures Mul64(0x1fbe6ff7d664c6a3, 0xb492b66fbe98f273) == 0x348aaef07dd35139
    ensures Add64(0x218f73804d5c4ba5, 0x348aaef07dd35139) == 0x561a2270cb2f9cde
    ensures Add64(0x561a2270cb2f9cde, 0x45e9a8ab67c2da15) == 0x9c03cb1c32f276f3
    ensures Mul64(0xa63559d42a5b7a92, 0x9ddfea08eb382d69) == 0x360aa98e4a00efe2
    ensures Mul64(0x37c2f4b9b80d1b17, 0x9ddfea08eb382d69) == 0x97c42efad52b276f
  {
  }

  lemma {:induction false} SeventyEndB()
    ensures Mul64(0x97c42efad52a08e7, 0x9ddfea08eb382d69) == 0xc5f200efd15641bf
    ensures Add64(0xc5f200efd15641bf, 0xf34e34b414a62595) == 0xb94035a3e5fc6754
    ensures Mul64(0x2543febfd70e11a7, 0x9ddfea08eb382d69) == 0x71185dfcd767987f
    ensures Mul64(0xc858685f329b1d1b, 0x9ddfea08eb382d69) == 0x35db976f2ca4af13
    ensures Mul64(0x35db976f2ca4c4a4, 0x9ddfea08eb382d69) == 0xbebcb91fd6057b44
  {
  }

  lemma {:induction false} SeventyEndC()
    ensures Xor64(0x6ee0a0f99d8f4b53, 0x2741bd6b2434f6be) == 0x49a11d92b9bbbded
  {
    hide Xor64;
    LongXorIs(Hex(X6, XE, XE, X0, XA, X0, XF, X9), Hex(X9, XD, X8, XF, X4, XB, X5, X3),
              Hex(X2, X7, X4, X1, XB, XD, X6, XB), Hex(X2, X4, X3, X4, XF, X6, XB, XE),
              0x6ee0a0f9, 0x9d8f4b53, 0x2741bd6b, 0x2434f6be, 0x49a11d92, 0xb9bbbded, 0x6ee0a0f99d8f4b53, 0x2741bd6b2434f6be, 0x49a11d92b9bbbded);
  }

  lemma {:induction false} SeventyEndD()
    ensures ShiftMix(0xe1cb75a6493b8f35) == 0xe1cb75a6493a4ca3
  {
    hide ShiftMix;
    ShiftMixIs(Hex(XE, X1, XC, XB, X7, X5, XA, X6), Hex(X4, X9, X3, XB, X8, XF, X3, X5),
               Hex(X0, X0, X0, X1, XC, X3, X9, X6), 0xe1cb75a6, 0x493b8f35, 0x1c396, 0x493a4ca3, 0xe1cb75a6493b8f35, 0xe1cb75a6493a4ca3);
  }

  lemma {:induction false} SeventyEndE()
    ensures Xor64(0x2741bd6b2434f6be, 0xe1cb75a6493a4ca3) == 0xc68ac8cd6d0eba1d
  {
    hide Xor64;
    LongXorIs(Hex(X2, X7, X4, X1, XB, XD, X6, XB), Hex(X2, X4, X3, X4, XF, X6, XB, XE),
              Hex(XE, X1, XC, XB, X7, X5, XA, X6), Hex(X4, X9, X3, XA, X4, XC, XA, X3),
              0x2741bd6b, 0x2434f6be, 0xe1cb75a6, 0x493a4ca3, 0xc68ac8cd, 0x6d0eba1d, 0x2741bd6b2434f6be, 0xe1cb75a6493a4ca3, 0xc68ac8cd6d0eba1d);
  }

  lemma {:induction false} SeventyEndF()
    ensures ShiftMix(0x1b1c2b66a7196ee5) == 0x1b1c2b66a71958dd
  {
    hide ShiftMix;
    ShiftMixIs(Hex(X1, XB, X1, XC, X2, XB, X6, X6), Hex(XA, X7, X1, X9, X6, XE, XE, X5),
               Hex(X0, X0, X0, X0, X3, X6, X3, X8), 0x1b1c2b66, 0xa7196ee5, 0x03638, 0xa71958dd, 0x1b1c2b66a7196ee5, 0x1b1c2b66a71958dd);
  }

  lemma {:induction false} SeventyEndG()
    ensures ShiftMix(0x1fbe6ff7d664f9df) == 0x1fbe6ff7d664c6a3
  {
    hide ShiftMix;
    ShiftMixIs(Hex(X1, XF, XB, XE, X6, XF, XF, X7), Hex(XD, X6, X6, X4, XF, X9, XD, XF),
               Hex(X0, X0, X0, X0, X3, XF, X7, XC), 0x1fbe6ff7, 0xd664f9df, 0x03f7c, 0xd664c6a3, 0x1fbe6ff7d664f9df, 0x1fbe6ff7d664c6a3);
  }

  lemma {:induction false} SeventyEndH()
    ensures Xor64(0xa7fd04e3d856e272, 0x01c85d37f20d98e0) == 0xa63559d42a5b7a92
  {
    hide Xor64;
    LongXorIs(Hex(XA, X7, XF, XD, X0, X4, XE, X3), Hex(XD, X8, X5, X6, XE, X2, X7, X2),
              Hex(X0, X1, XC, X8, X5, XD, X3, X7), Hex(XF, X2, X0, XD, X9, X8, XE, X0),
              0xa7fd04e3, 0xd856e272, 0x01c85d37, 0xf20d98e0, 0xa63559d4, 0x2a5b7a92, 0xa7fd04e3d856e272, 0x01c85d37f20d98e0, 0xa63559d42a5b7a92);
  }

  lemma {:induction false} SeventyEndI()
    ensures ShiftMix(0x360aa98e4a00efe2) == 0x360aa98e4a0083f7
  {
    hide ShiftMix;
    ShiftMixIs(Hex(X3, X6, X0, XA, XA, X9, X8, XE), Hex(X4, XA, X0, X0, XE, XF, XE, X2),
               Hex(X0, X0, X0, X0, X6, XC, X1, X5), 0x360aa98e, 0x4a00efe2, 0x06c15, 0x4a0083f7, 0x360aa98e4a00efe2, 0x360aa98e4a0083f7);
  }

  lemma {:induction false} SeventyEndJ()
    ensures Xor64(0x01c85d37f20d98e0, 0x360aa98e4a0083f7) == 0x37c2f4b9b80d1b17
  {
    hide Xor64;
    LongXorIs(Hex(X0, X1, XC, X8, X5, XD, X3, X7), Hex(XF, X2, X0, XD, X9, X8, XE, X0),
              Hex(X3, X6, X0, XA, XA, X9, X8, XE), Hex(X4, XA, X0, X0, X8, X3, XF, X7),
              0x01c85d37, 0xf20d98e0, 0x360aa98e, 0x4a0083f7, 0x37c2f4b9, 0xb80d1b17, 0x01c85d37f20d98e0, 0x360aa98e4a0083f7, 0x37c2f4b9b80d1b17);
  }

  lemma {:induction false} SeventyEndK()
    ensures ShiftMix(0x97c42efad52b276f) == 0x97c42efad52a08e7
  {
    hide ShiftMix;
    ShiftMixIs(Hex(X9, X7, XC, X4, X2, XE, XF, XA), Hex(XD, X5, X2, XB, X2, X7, X6, XF),
               Hex(X0, X0, X0, X1, X2, XF, X8, X8), 0x97c42efa, 0xd52b276f, 0x12f88, 0xd52a08e7, 0x97c42efad52b276f, 0x97c42efad52a08e7);
  }

  lemma {:induction false} SeventyEndL()
    ensures Xor64(0x9c03cb1c32f276f3, 0xb94035a3e5fc6754) == 0x2543febfd70e11a7
  {
    hide Xor64;
    LongXorIs(Hex(X9, XC, X0, X3, XC, XB, X1, XC), Hex(X3, X2, XF, X2, X7, X6, XF, X3),
              Hex(XB, X9, X4, X0, X3, X5, XA, X3), Hex(XE, X5, XF, XC, X6, X7, X5, X4),
              0x9c03cb1c, 0x32f276f3, 0xb94035a3, 0xe5fc6754, 0x2543febf, 0xd70e11a7, 0x9c03cb1c32f276f3, 0xb94035a3e5fc6754, 0x2543febfd70e11a7);
  }

  lemma {:induction false} SeventyEndM()
    ensures ShiftMix(0x71185dfcd767987f) == 0x71185dfcd7677a4f
  {
    hide ShiftMix;
    ShiftMixIs(Hex(X7, X1, X1, X8, X5, XD, XF, XC), Hex(XD, X7, X6, X7, X9, X8, X7, XF),
               Hex(X0, X0, X0, X0, XE, X2, X3, X0), 0x71185dfc, 0xd767987f, 0x0e230, 0xd7677a4f, 0x71185dfcd767987f, 0x71185dfcd7677a4f);
  }

  lemma {:induction false} SeventyEndN()
    ensures Xor64(0xb94035a3e5fc6754, 0x71185dfcd7677a4f) == 0xc858685f329b1d1b
  {
    hide Xor64;
    LongXorIs(Hex(XB, X9, X4, X0, X3, X5, XA, X3), Hex(XE, X5, XF, XC, X6, X7, X5, X4),
              Hex(X7, X1, X1, X8, X5, XD, XF, XC), Hex(XD, X7, X6, X7, X7, XA, X4, XF),
              0xb94035a3, 0xe5fc6754, 0x71185dfc, 0xd7677a4f, 0xc858685f, 0x329b1d1b, 0xb94035a3e5fc6754, 0x71185dfcd7677a4f, 0xc858685f329b1d1b);
  }

  lemma {:induction false} SeventyEndO()
    ensures ShiftMix(0x35db976f2ca4af13) == 0x35db976f2ca4c4a4
  {
    hide ShiftMix;
    ShiftMixIs(Hex(X3, X5, XD, XB, X9, X7, X6, XF), Hex(X2, XC, XA, X4, XA, XF, X1, X3),
               Hex(X0, X0, X0, X0, X6, XB, XB, X7), 0x35db976f, 0x2ca4af13, 0x06bb7, 0x2ca4c4a4, 0x35db976f2ca4af13, 0x35db976f2ca4c4a4);
  }

  lemma {:induction false} SeventyEnds()
    ensures Finish(State(0xf34e34b414a62595, 0x1fbe6ff7d664f9df, 0x45e9a8ab67c2da15, Pair(0x6ee0a0f99d8f4b53, 0xa7fd04e3d856e272), Pair(0x2741bd6b2434f6be, 0x01c85d37f20d98e0))) == 0xbebcb91fd6057b44
  {
    hide Add64, Sub64, Mul64, Xor64, Rotate64, ShiftMix, Bswap64, FetchAll, Fetch64, Fetch32, Count;
    SeventyEndA();
    SeventyEndB();
    SeventyEndC();
    SeventyEndD();
    SeventyEndE();
    SeventyEndF();
    SeventyEndG();
    SeventyEndH();
    SeventyEndI();
    SeventyEndJ();
    SeventyEndK();
    SeventyEndL();
    SeventyEndM();
    SeventyEndN();
    SeventyEndO();
  }

  lemma {:induction false} SeventyHash()
    ensures CityHash64(Count(0, 70)) == 0xbebcb91fd6057b44
  {
    hide Start, BlockStep, Finish, FetchAll, Count;
    SeventyStarts();
    SeventyBlockWords();
    SeventySteps();
    SeventyEnds();
    OneBlock(Start(Count(0, 70)), Count(0, 70));
  }

  lemma {:induction false} OneBlock(st: State, s: seq<Byte>)
    requires |s| >= 64
    ensures Blocks(st, s, 1) == BlockStep(st, FetchAll(s, BlockOffsets(0)))
  {
    hide BlockStep, FetchAll;
    assert Blocks(st, s, 0) == st;
  }

  lemma {:induction false} ThreeSeededA()
    ensures Sub64(0x94a13d22e9eba49a, 0x0000000000000005) == 0x94a13d22e9eba495
    ensures Mul64(0x94a13d22e9eba492, 0x9ddfea08eb382d69) == 0x53384a9e638429e2
    ensures Mul64(0x53384a9e63848f95, 0x9ddfea08eb382d69) == 0x7a6295ea4e34151d
    ensures Mul64(0x7a6295ea4e34e1d8, 0x9ddfea08eb382d69) == 0x6313d27c0ea39998
  {
  }

  lemma {:induction false} ThreeSeededB()
    ensures Xor64(0x94a13d22e9eba495, 0x0000000000000007) == 0x94a13d22e9eba492
  {
    hide Xor64;
    LongXorIs(Hex(X9, X4, XA, X1, X3, XD, X2, X2), Hex(XE, X9, XE, XB, XA, X4, X9, X5),
              Hex(X0, X0, X0, X0, X0, X0, X0, X0), Hex(X0, X0, X0, X0, X0, X0, X0, X7),
              0x94a13d22, 0xe9eba495, 0x00000000, 0x00000007, 0x94a13d22, 0xe9eba492, 0x94a13d22e9eba495, 0x0000000000000007, 0x94a13d22e9eba492);
  }

  lemma {:induction false} ThreeSeededC()
    ensures ShiftMix(0x53384a9e638429e2) == 0x53384a9e63848f92
  {
    hide ShiftMix;
    ShiftMixIs(Hex(X5, X3, X3, X8, X4, XA, X9, XE), Hex(X6, X3, X8, X4, X2, X9, XE, X2),
               Hex(X0, X0, X0, X0, XA, X6, X7, X0), 0x53384a9e, 0x638429e2, 0x0a670, 0x63848f92, 0x53384a9e638429e2, 0x53384a9e63848f92);
  }

  lemma {:induction false} ThreeSeededD()
    ensures Xor64(0x0000000000000007, 0x53384a9e63848f92) == 0x53384a9e63848f95
  {
    hide Xor64;
    LongXorIs(Hex(X0, X0, X0, X0, X0, X0, X0, X0), Hex(X0, X0, X0, X0, X0, X0, X0, X7),
              Hex(X5, X3, X3, X8, X4, XA, X9, XE), Hex(X6, X3, X8, X4, X8, XF, X9, X2),
              0x00000000, 0x00000007, 0x53384a9e, 0x63848f92, 0x53384a9e, 0x63848f95, 0x0000000000000007, 0x53384a9e63848f92, 0x53384a9e63848f95);
  }

  lemma {:induction false} ThreeSeededE()
    ensures ShiftMix(0x7a6295ea4e34151d) == 0x7a6295ea4e34e1d8
  {
    hide ShiftMix;
    ShiftMixIs(Hex(X7, XA, X6, X2, X9, X5, XE, XA), Hex(X4, XE, X3, X4, X1, X5, X1, XD),
               Hex(X0, X0, X0, X0, XF, X4, XC, X5), 0x7a6295ea, 0x4e34151d, 0x0f4c5, 0x4e34e1d8, 0x7a6295ea4e34151d, 0x7a6295ea4e34e1d8);
  }

  lemma {:induction false} ThreeSeededHash()
    ensures CityHash64WithSeeds(Count(0, 3), 5, 7) == 0x6313d27c0ea39998
  {
    hide Add64, Sub64, Mul64, Xor64, Rotate64, ShiftMix, Bswap64, FetchAll, Fetch64, Fetch32, Count, CityHash64;
    ThreeHash();
    ThreeSeededA();
    ThreeSeededB();
    ThreeSeededC();
    ThreeSeededD();
    ThreeSeededE();
  }

  // ----- CityHash128 -----

  lemma {:induction false} CountRest(a: nat, n: nat)
    requires a + n <= 256 && n >= 16
    ensures Count(a, n)[16..] == Count(a + 16, n - 16)
  {
    hide Count;
  }

  lemma {:induction false} ElevenSeededA()
    ensures Mul64(0xc3a5c85c97cb3127, 0xb492b66fbe98f273) == 0x04cd821f65e5f285
    ensures Mul64(0x04cd821f65e5fb1e, 0xb492b66fbe98f273) == 0xfbf3895d8b822a7a
    ensures Mul64(0xb492b66fbe98f273, 0xb492b66fbe98f273) == 0x927126fd822d9fa9
    ensures Add64(0x927126fd822d9fa9, 0xf3212b3c1d803add) == 0x859252399fadda86
    ensures Add64(0xfbf3895d8b822a7a, 0x0706050403020100) == 0x02f98e618e842b7a
  {
  }

  lemma {:induction false} ElevenSeededB()
    ensures ShiftMix(0x04cd821f65e5f285) == 0x04cd821f65e5fb1e
  {
    hide ShiftMix;
    ShiftMixIs(Hex(X0, X4, XC, XD, X8, X2, X1, XF), Hex(X6, X5, XE, X5, XF, X2, X8, X5),
               Hex(X0, X0, X0, X0, X0, X9, X9, XB), 0x04cd821f, 0x65e5f285, 0x0099b, 0x65e5fb1e, 0x04cd821f65e5f285, 0x04cd821f65e5fb1e);
  }

  lemma {:induction false} ElevenSeededC()
    ensures ShiftMix(0x02f98e618e842b7a) == 0x02f98e618e842e89
  {
    hide ShiftMix;
    ShiftMixIs(Hex(X0, X2, XF, X9, X8, XE, X6, X1), Hex(X8, XE, X8, X4, X2, XB, X7, XA),
               Hex(X0, X0, X0, X0, X0, X5, XF, X3), 0x02f98e61, 0x8e842b7a, 0x005f3, 0x8e842e89, 0x02f98e618e842b7a, 0x02f98e618e842e89);
  }

  lemma {:induction false} ElevenShort()
    ensures HashLen0to16(Count(0, 11)) == 0xf3212b3c1d803add
  {
    hide HashLen0to16, Count;
    Eleven64Hash();
  }

  lemma {:induction false} ElevenStarts()
    ensures MurmurShort(Count(0, 11), Pair(K0, K1)) == MurmurState(0xfbf3895d8b822a7a, 0xb492b66fbe98f273, 0x859252399fadda86, 0x02f98e618e842e89)
  {
    hide Add64, Sub64, Mul64, Xor64, Rotate64, ShiftMix, Bswap64, FetchAll, Fetch64, Fetch32, Count, HashLen0to16;
    CountFetch(0, 11, 0);
    ElevenSeededA();
    ElevenSeededB();
    ElevenSeededC();
    ElevenShort();
  }

  lemma {:induction false} ElevenEndA()
    ensures Mul64(0x7e61db64142ff0fc, 0x9ddfea08eb382d69) == 0xd169e02cc026235c
    ensures Mul64(0x54fbb2155f8a5b09, 0x9ddfea08eb382d69) == 0xf24ac6acaeb7ebb1
    ensures Mul64(0xf24ac6acaeb60f24, 0x9ddfea08eb382d69) == 0xa3a29063053589c4
    ensures Mul64(0xb66b380e301cdcfa, 0x9ddfea08eb382d69) == 0xa6c2ed40a35e948a
    ensures Mul64(0x12505b2f1dc72b7c, 0x9ddfea08eb382d69) == 0xbe9dbaeb9075a1dc
    ensures Mul64(0xbe9dbaeb9074dce7, 0x9ddfea08eb382d69) == 0x777b00932a4b35bf
    ensures Mul64(0xd4d990f02f7ebc7b, 0x9ddfea08eb382d69) == 0xae3db772e604ed73
    ensures Mul64(0x0d9f2711e33038cc, 0x9ddfea08eb382d69) == 0x4abc6055596327ac
  {
  }

  lemma {:induction false} ElevenEndB()
    ensures Mul64(0x4abc60555963b2d4, 0x9ddfea08eb382d69) == 0xe72bf54feab39cf4
  {
  }

  lemma {:induction false} ElevenEndC()
    ensures Xor64(0xfbf3895d8b822a7a, 0x859252399fadda86) == 0x7e61db64142ff0fc
  {
    hide Xor64;
    LongXorIs(Hex(XF, XB, XF, X3, X8, X9, X5, XD), Hex(X8, XB, X8, X2, X2, XA, X7, XA),
              Hex(X8, X5, X9, X2, X5, X2, X3, X9), Hex(X9, XF, XA, XD, XD, XA, X8, X6),
              0xfbf3895d, 0x8b822a7a, 0x85925239, 0x9fadda86, 0x7e61db64, 0x142ff0fc, 0xfbf3895d8b822a7a, 0x859252399fadda86, 0x7e61db64142ff0fc);
  }

  lemma {:induction false} ElevenEndD()
    ensures ShiftMix(0xd169e02cc026235c) == 0xd169e02cc027818f
  {
    hide ShiftMix;
    ShiftMixIs(Hex(XD, X1, X6, X9, XE, X0, X2, XC), Hex(XC, X0, X2, X6, X2, X3, X5, XC),
               Hex(X0, X0, X0, X1, XA, X2, XD, X3), 0xd169e02c, 0xc026235c, 0x1a2d3, 0xc027818f, 0xd169e02cc026235c, 0xd169e02cc027818f);
  }

  lemma {:induction false} ElevenEndE()
    ensures Xor64(0x859252399fadda86, 0xd169e02cc027818f) == 0x54fbb2155f8a5b09
  {
    hide Xor64;
    LongXorIs(Hex(X8, X5, X9, X2, X5, X2, X3, X9), Hex(X9, XF, XA, XD, XD, XA, X8, X6),
              Hex(XD, X1, X6, X9, XE, X0, X2, XC), Hex(XC, X0, X2, X7, X8, X1, X8, XF),
              0x85925239, 0x9fadda86, 0xd169e02c, 0xc027818f, 0x54fbb215, 0x5f8a5b09, 0x859252399fadda86, 0xd169e02cc027818f, 0x54fbb2155f8a5b09);
  }

  lemma {:induction false} ElevenEndF()
    ensures ShiftMix(0xf24ac6acaeb7ebb1) == 0xf24ac6acaeb60f24
  {
    hide ShiftMix;
    ShiftMixIs(Hex(XF, X2, X4, XA, XC, X6, XA, XC), Hex(XA, XE, XB, X7, XE, XB, XB, X1),
               Hex(X0, X0, X0, X1, XE, X4, X9, X5), 0xf24ac6ac, 0xaeb7ebb1, 0x1e495, 0xaeb60f24, 0xf24ac6acaeb7ebb1, 0xf24ac6acaeb60f24);
  }

  lemma {:induction false} ElevenEndG()
    ensures Xor64(0x02f98e618e842e89, 0xb492b66fbe98f273) == 0xb66b380e301cdcfa
  {
    hide Xor64;
    LongXorIs(Hex(X0, X2, XF, X9, X8, XE, X6, X1), Hex(X8, XE, X8, X4, X2, XE, X8, X9),
              Hex(XB, X4, X9, X2, XB, X6, X6, XF), Hex(XB, XE, X9, X8, XF, X2, X7, X3),
              0x02f98e61, 0x8e842e89, 0xb492b66f, 0xbe98f273, 0xb66b380e, 0x301cdcfa, 0x02f98e618e842e89, 0xb492b66fbe98f273, 0xb66b380e301cdcfa);
  }

  lemma {:induction false} ElevenEndH()
    ensures ShiftMix(0xa6c2ed40a35e948a) == 0xa6c2ed40a35fd90f
  {
    hide ShiftMix;
    ShiftMixIs(Hex(XA, X6, XC, X2, XE, XD, X4, X0), Hex(XA, X3, X5, XE, X9, X4, X8, XA),
               Hex(X0, X0, X0, X1, X4, XD, X8, X5), 0xa6c2ed40, 0xa35e948a, 0x14d85, 0xa35fd90f, 0xa6c2ed40a35e948a, 0xa6c2ed40a35fd90f);
  }

  lemma {:induction false} ElevenEndI()
    ensures Xor64(0xb492b66fbe98f273, 0xa6c2ed40a35fd90f) == 0x12505b2f1dc72b7c
  {
    hide Xor64;
    LongXorIs(Hex(XB, X4, X9, X2, XB, X6, X6, XF), Hex(XB, XE, X9, X8, XF, X2, X7, X3),
              Hex(XA, X6, XC, X2, XE, XD, X4, X0), Hex(XA, X3, X5, XF, XD, X9, X0, XF),
              0xb492b66f, 0xbe98f273, 0xa6c2ed40, 0xa35fd90f, 0x12505b2f, 0x1dc72b7c, 0xb492b66fbe98f273, 0xa6c2ed40a35fd90f, 0x12505b2f1dc72b7c);
  }

  lemma {:induction false} ElevenEndJ()
    ensures ShiftMix(0xbe9dbaeb9075a1dc) == 0xbe9dbaeb9074dce7
  {
    hide ShiftMix;
    ShiftMixIs(Hex(XB, XE, X9, XD, XB, XA, XE, XB), Hex(X9, X0, X7, X5, XA, X1, XD, XC),
               Hex(X0, X0, X0, X1, X7, XD, X3, XB), 0xbe9dbaeb, 0x9075a1dc, 0x17d3b, 0x9074dce7, 0xbe9dbaeb9075a1dc, 0xbe9dbaeb9074dce7);
  }

  lemma {:induction false} ElevenEndK()
    ensures Xor64(0xa3a29063053589c4, 0x777b00932a4b35bf) == 0xd4d990f02f7ebc7b
  {
    hide Xor64;
    LongXorIs(Hex(XA, X3, XA, X2, X9, X0, X6, X3), Hex(X0, X5, X3, X5, X8, X9, XC, X4),
              Hex(X7, X7, X7, XB, X0, X0, X9, X3), Hex(X2, XA, X4, XB, X3, X5, XB, XF),
              0xa3a29063, 0x053589c4, 0x777b0093, 0x2a4b35bf, 0xd4d990f0, 0x2f7ebc7b, 0xa3a29063053589c4, 0x777b00932a4b35bf, 0xd4d990f02f7ebc7b);
  }

  lemma {:induction false} ElevenEndL()
    ensures Xor64(0x777b00932a4b35bf, 0xa3a29063053589c4) == 0xd4d990f02f7ebc7b
  {
    hide Xor64;
    LongXorIs(Hex(X7, X7, X7, XB, X0, X0, X9, X3), Hex(X2, XA, X4, XB, X3, X5, XB, XF),
              Hex(XA, X3, XA, X2, X9, X0, X6, X3), Hex(X0, X5, X3, X5, X8, X9, XC, X4),
              0x777b0093, 0x2a4b35bf, 0xa3a29063, 0x053589c4, 0xd4d990f0, 0x2f7ebc7b, 0x777b00932a4b35bf, 0xa3a29063053589c4, 0xd4d990f02f7ebc7b);
  }

  lemma {:induction false} ElevenEndM()
    ensures ShiftMix(0xae3db772e604ed73) == 0xae3db772e605b108
  {
    hide ShiftMix;
    ShiftMixIs(Hex(XA, XE, X3, XD, XB, X7, X7, X2), Hex(XE, X6, X0, X4, XE, XD, X7, X3),
               Hex(X0, X0, X0, X1, X5, XC, X7, XB), 0xae3db772, 0xe604ed73, 0x15c7b, 0xe605b108, 0xae3db772e604ed73, 0xae3db772e605b108);
  }

  lemma {:induction false} ElevenEndN()
    ensures Xor64(0xa3a29063053589c4, 0xae3db772e605b108) == 0x0d9f2711e33038cc
  {
    hide Xor64;
    LongXorIs(Hex(XA, X3, XA, X2, X9, X0, X6, X3), Hex(X0, X5, X3, X5, X8, X9, XC, X4),
              Hex(XA, XE, X3, XD, XB, X7, X7, X2), Hex(XE, X6, X0, X5, XB, X1, X0, X8),
              0xa3a29063, 0x053589c4, 0xae3db772, 0xe605b108, 0x0d9f2711, 0xe33038cc, 0xa3a29063053589c4, 0xae3db772e605b108, 0x0d9f2711e33038cc);
  }

  lemma {:induction false} ElevenEndO()
    ensures ShiftMix(0x4abc6055596327ac) == 0x4abc60555963b2d4
  {
    hide ShiftMix;
    ShiftMixIs(Hex(X4, XA, XB, XC, X6, X0, X5, X5), Hex(X5, X9, X6, X3, X2, X7, XA, XC),
               Hex(X0, X0, X0, X0, X9, X5, X7, X8), 0x4abc6055, 0x596327ac, 0x09578, 0x5963b2d4, 0x4abc6055596327ac, 0x4abc60555963b2d4);
  }

  lemma {:induction false} ElevenEnds()
    ensures MurmurFinish(MurmurState(0xfbf3895d8b822a7a, 0xb492b66fbe98f273, 0x859252399fadda86, 0x02f98e618e842e89)) == Pair(0xd4d990f02f7ebc7b, 0xe72bf54feab39cf4)
  {
    hide Add64, Sub64, Mul64, Xor64, Rotate64, ShiftMix, Bswap64, FetchAll, Fetch64, Fetch32, Count;
    ElevenEndA();
    ElevenEndB();
    ElevenEndC();
    ElevenEndD();
    ElevenEndE();
    ElevenEndF();
    ElevenEndG();
    ElevenEndH();
    ElevenEndI();
    ElevenEndJ();
    ElevenEndK();
    ElevenEndL();
    ElevenEndM();
    ElevenEndN();
    ElevenEndO();
  }

  lemma {:induction false} Eleven128Hash()
    ensures CityHash128(Count(0, 11)) == Pair(0xd4d990f02f7ebc7b, 0xe72bf54feab39cf4)
  {
    hide MurmurShort, MurmurFinish, Count;
    ElevenStarts();
    ElevenEnds();
  }

  lemma {:induction false} FortyFiveEndWords()
    ensures FetchAll(Count(16, 29), MurmurEndOffsets(29)) == [0x2c2b2a2928272625, 0x24232221201f1e1d]
  {
    hide Fetch64, Count;
    CountFetch(16, 29, 21);
    CountFetch(16, 29, 13);
  }

  lemma {:induction false} FortyFiveWords()
    ensures FetchAll(Count(16, 29), MurmurOffsets(0)) == [0x1716151413121110, 0x1f1e1d1c1b1a1918]
  {
    hide Fetch64, Count;
    CountFetch(16, 29, 0);
    CountFetch(16, 29, 8);
  }

  lemma {:induction false} FortyFiveStartA()
    ensures Add64(0x2c2b2a2928272625, 0xb492b66fbe98f273) == 0xe0bde098e6c01898
    ensures Mul64(0xe7bbe59ce5c21998, 0x9ddfea08eb382d69) == 0x7186ee717c5c3758
    ensures Mul64(0x7680eb757f5ed555, 0x9ddfea08eb382d69) == 0x41e581d09afd70dd
    ensures Mul64(0x41e581d09afdf316, 0x9ddfea08eb382d69) == 0x7928a43094b39206
    ensures Add64(0xd2b3d568a2d53a2f, 0x000000000000001d) == 0xd2b3d568a2d53a4c
    ensures Add64(0x7928a43094b39206, 0x24232221201f1e1d) == 0x9d4bc651b4d2b023
    ensures Mul64(0x4ff8133916078a6f, 0x9ddfea08eb382d69) == 0x424d727b89b54a87
    ensures Mul64(0xdf06b42a3d677e3e, 0x9ddfea08eb382d69) == 0x59a95f94e833ad6e
  {
  }

  lemma {:induction false} FortyFiveStartB()
    ensures Mul64(0x59a95f94e8331e3c, 0x9ddfea08eb382d69) == 0x437ee2b3ea67f29c
    ensures Add64(0x0706050403020100, 0x437ee2b3ea67f29c) == 0x4a84e7b7ed69f39c
  {
  }

  lemma {:induction false} FortyFiveStartC()
    ensures Xor64(0xe0bde098e6c01898, 0x0706050403020100) == 0xe7bbe59ce5c21998
  {
    hide Xor64;
    LongXorIs(Hex(XE, X0, XB, XD, XE, X0, X9, X8), Hex(XE, X6, XC, X0, X1, X8, X9, X8),
              Hex(X0, X7, X0, X6, X0, X5, X0, X4), Hex(X0, X3, X0, X2, X0, X1, X0, X0),
              0xe0bde098, 0xe6c01898, 0x07060504, 0x03020100, 0xe7bbe59c, 0xe5c21998, 0xe0bde098e6c01898, 0x0706050403020100, 0xe7bbe59ce5c21998);
  }

  lemma {:induction false} FortyFiveStartD()
    ensures ShiftMix(0x7186ee717c5c3758) == 0x7186ee717c5cd455
  {
    hide ShiftMix;
    ShiftMixIs(Hex(X7, X1, X8, X6, XE, XE, X7, X1), Hex(X7, XC, X5, XC, X3, X7, X5, X8),
               Hex(X0, X0, X0, X0, XE, X3, X0, XD), 0x7186ee71, 0x7c5c3758, 0x0e30d, 0x7c5cd455, 0x7186ee717c5c3758, 0x7186ee717c5cd455);
  }

  lemma {:induction false} FortyFiveStartE()
    ensures Xor64(0x0706050403020100, 0x7186ee717c5cd455) == 0x7680eb757f5ed555
  {
    hide Xor64;
    LongXorIs(Hex(X0, X7, X0, X6, X0, X5, X0, X4), Hex(X0, X3, X0, X2, X0, X1, X0, X0),
              Hex(X7, X1, X8, X6, XE, XE, X7, X1), Hex(X7, XC, X5, XC, XD, X4, X5, X5),
              0x07060504, 0x03020100, 0x7186ee71, 0x7c5cd455, 0x7680eb75, 0x7f5ed555, 0x0706050403020100, 0x7186ee717c5cd455, 0x7680eb757f5ed555);
  }

  lemma {:induction false} FortyFiveStartF()
    ensures ShiftMix(0x41e581d09afd70dd) == 0x41e581d09afdf316
  {
    hide ShiftMix;
    ShiftMixIs(Hex(X4, X1, XE, X5, X8, X1, XD, X0), Hex(X9, XA, XF, XD, X7, X0, XD, XD),
               Hex(X0, X0, X0, X0, X8, X3, XC, XB), 0x41e581d0, 0x9afd70dd, 0x083cb, 0x9afdf316, 0x41e581d09afd70dd, 0x41e581d09afdf316);
  }

  lemma {:induction false} FortyFiveStartG()
    ensures Xor64(0xd2b3d568a2d53a4c, 0x9d4bc651b4d2b023) == 0x4ff8133916078a6f
  {
    hide Xor64;
    LongXorIs(Hex(XD, X2, XB, X3, XD, X5, X6, X8), Hex(XA, X2, XD, X5, X3, XA, X4, XC),
              Hex(X9, XD, X4, XB, XC, X6, X5, X1), Hex(XB, X4, XD, X2, XB, X0, X2, X3),
              0xd2b3d568, 0xa2d53a4c, 0x9d4bc651, 0xb4d2b023, 0x4ff81339, 0x16078a6f, 0xd2b3d568a2d53a4c, 0x9d4bc651b4d2b023, 0x4ff8133916078a6f);
  }

  lemma {:induction false} FortyFiveStartH()
    ensures ShiftMix(0x424d727b89b54a87) == 0x424d727b89b5ce1d
  {
    hide ShiftMix;
    ShiftMixIs(Hex(X4, X2, X4, XD, X7, X2, X7, XB), Hex(X8, X9, XB, X5, X4, XA, X8, X7),
               Hex(X0, X0, X0, X0, X8, X4, X9, XA), 0x424d727b, 0x89b54a87, 0x0849a, 0x89b5ce1d, 0x424d727b89b54a87, 0x424d727b89b5ce1d);
  }

  lemma {:induction false} FortyFiveStartI()
    ensures Xor64(0x9d4bc651b4d2b023, 0x424d727b89b5ce1d) == 0xdf06b42a3d677e3e
  {
    hide Xor64;
    LongXorIs(Hex(X9, XD, X4, XB, XC, X6, X5, X1), Hex(XB, X4, XD, X2, XB, X0, X2, X3),
              Hex(X4, X2, X4, XD, X7, X2, X7, XB), Hex(X8, X9, XB, X5, XC, XE, X1, XD),
              0x9d4bc651, 0xb4d2b023, 0x424d727b, 0x89b5ce1d, 0xdf06b42a, 0x3d677e3e, 0x9d4bc651b4d2b023, 0x424d727b89b5ce1d, 0xdf06b42a3d677e3e);
  }

  lemma {:induction false} FortyFiveStartJ()
    ensures ShiftMix(0x59a95f94e833ad6e) == 0x59a95f94e8331e3c
  {
    hide ShiftMix;
    ShiftMixIs(Hex(X5, X9, XA, X9, X5, XF, X9, X4), Hex(XE, X8, X3, X3, XA, XD, X6, XE),
               Hex(X0, X0, X0, X0, XB, X3, X5, X2), 0x59a95f94, 0xe833ad6e, 0x0b352, 0xe8331e3c, 0x59a95f94e833ad6e, 0x59a95f94e8331e3c);
  }

  lemma {:induction false} FortyFiveStarts()
    ensures MurmurStart(Count(16, 29), Pair(0x0706050403020100, 0xd2b3d568a2d53a2f)) == MurmurState(0x4a84e7b7ed69f39c, 0xd2b3d568a2d53a2f, 0x7928a43094b39206, 0x437ee2b3ea67f29c)
  {
    hide Add64, Sub64, Mul64, Xor64, Rotate64, ShiftMix, Bswap64, FetchAll, Fetch64, Fetch32, Count;
    FortyFiveEndWords();
    FortyFiveStartA();
    FortyFiveStartB();
    FortyFiveStartC();
    FortyFiveStartD();
    FortyFiveStartE();
    FortyFiveStartF();
    FortyFiveStartG();
    FortyFiveStartH();
    FortyFiveStartI();
    FortyFiveStartJ();
  }

  lemma {:induction false} FortyFiveStepA()
    ensures Mul64(0x1716151413121110, 0xb492b66fbe98f273) == 0xc101f35fa6beca30
    ensures Mul64(0xc101f35fa6bf4833, 0xb492b66fbe98f273) == 0x5dd848de7275a4e9
    ensures Mul64(0x175caf699f1c5775, 0xb492b66fbe98f273) == 0xef73405307dfe38f
    ensures Mul64(0x1f1e1d1c1b1a1918, 0xb492b66fbe98f273) == 0x14b10cc58eb1f5c8
    ensures Mul64(0x14b10cc58eb1dcaa, 0xb492b66fbe98f273) == 0x91c3c2ba6d6ed45e
    ensures Mul64(0xe8eb668af9dd4658, 0xb492b66fbe98f273) == 0xd5c916607f25c988
  {
  }

  lemma {:induction false} FortyFiveStepB()
    ensures ShiftMix(0xc101f35fa6beca30) == 0xc101f35fa6bf4833
  {
    hide ShiftMix;
    ShiftMixIs(Hex(XC, X1, X0, X1, XF, X3, X5, XF), Hex(XA, X6, XB, XE, XC, XA, X3, X0),
               Hex(X0, X0, X0, X1, X8, X2, X0, X3), 0xc101f35f, 0xa6beca30, 0x18203, 0xa6bf4833, 0xc101f35fa6beca30, 0xc101f35fa6bf4833);
  }

  lemma {:induction false} FortyFiveStepC()
    ensures Xor64(0x4a84e7b7ed69f39c, 0x5dd848de7275a4e9) == 0x175caf699f1c5775
  {
    hide Xor64;
    LongXorIs(Hex(X4, XA, X8, X4, XE, X7, XB, X7), Hex(XE, XD, X6, X9, XF, X3, X9, XC),
              Hex(X5, XD, XD, X8, X4, X8, XD, XE), Hex(X7, X2, X7, X5, XA, X4, XE, X9),
              0x4a84e7b7, 0xed69f39c, 0x5dd848de, 0x7275a4e9, 0x175caf69, 0x9f1c5775, 0x4a84e7b7ed69f39c, 0x5dd848de7275a4e9, 0x175caf699f1c5775);
  }

  lemma {:induction false} FortyFiveStepD()
    ensures ShiftMix(0x14b10cc58eb1f5c8) == 0x14b10cc58eb1dcaa
  {
    hide ShiftMix;
    ShiftMixIs(Hex(X1, X4, XB, X1, X0, XC, XC, X5), Hex(X8, XE, XB, X1, XF, X5, XC, X8),
               Hex(X0, X0, X0, X0, X2, X9, X6, X2), 0x14b10cc5, 0x8eb1f5c8, 0x02962, 0x8eb1dcaa, 0x14b10cc58eb1f5c8, 0x14b10cc58eb1dcaa);
  }

  lemma {:induction false} FortyFiveStepE()
    ensures Xor64(0x7928a43094b39206, 0x91c3c2ba6d6ed45e) == 0xe8eb668af9dd4658
  {
    hide Xor64;
    LongXorIs(Hex(X7, X9, X2, X8, XA, X4, X3, X0), Hex(X9, X4, XB, X3, X9, X2, X0, X6),
              Hex(X9, X1, XC, X3, XC, X2, XB, XA), Hex(X6, XD, X6, XE, XD, X4, X5, XE),
              0x7928a430, 0x94b39206, 0x91c3c2ba, 0x6d6ed45e, 0xe8eb668a, 0xf9dd4658, 0x7928a43094b39206, 0x91c3c2ba6d6ed45e, 0xe8eb668af9dd4658);
  }

  lemma {:induction false} FortyFiveStepF()
    ensures Xor64(0xd2b3d568a2d53a2f, 0xef73405307dfe38f) == 0x3dc0953ba50ad9a0
  {
    hide Xor64;
    LongXorIs(Hex(XD, X2, XB, X3, XD, X5, X6, X8), Hex(XA, X2, XD, X5, X3, XA, X2, XF),
              Hex(XE, XF, X7, X3, X4, X0, X5, X3), Hex(X0, X7, XD, XF, XE, X3, X8, XF),
              0xd2b3d568, 0xa2d53a2f, 0xef734053, 0x07dfe38f, 0x3dc0953b, 0xa50ad9a0, 0xd2b3d568a2d53a2f, 0xef73405307dfe38f, 0x3dc0953ba50ad9a0);
  }

  lemma {:induction false} FortyFiveStepG()
    ensures Xor64(0x437ee2b3ea67f29c, 0xd5c916607f25c988) == 0x96b7f4d395423b14
  {
    hide Xor64;
    LongXorIs(Hex(X4, X3, X7, XE, XE, X2, XB, X3), Hex(XE, XA, X6, X7, XF, X2, X9, XC),
              Hex(XD, X5, XC, X9, X1, X6, X6, X0), Hex(X7, XF, X2, X5, XC, X9, X8, X8),
              0x437ee2b3, 0xea67f29c, 0xd5c91660, 0x7f25c988, 0x96b7f4d3, 0x95423b14, 0x437ee2b3ea67f29c, 0xd5c916607f25c988, 0x96b7f4d395423b14);
  }

  lemma {:induction false} FortyFiveSteps()
    ensures MurmurStep(MurmurState(0x4a84e7b7ed69f39c, 0xd2b3d568a2d53a2f, 0x7928a43094b39206, 0x437ee2b3ea67f29c), [0x1716151413121110, 0x1f1e1d1c1b1a1918]) == MurmurState(0xef73405307dfe38f, 0x3dc0953ba50ad9a0, 0xd5c916607f25c988, 0x96b7f4d395423b14)
  {
    hide Add64, Sub64, Mul64, Xor64, Rotate64, ShiftMix, Bswap64, FetchAll, Fetch64, Fetch32, Count;
    FortyFiveStepA();
    FortyFiveStepB();
    FortyFiveStepC();
    FortyFiveStepD();
    FortyFiveStepE();
    FortyFiveStepF();
    FortyFiveStepG();
  }

  lemma {:induction false} FortyFiveLastA()
    ensures Mul64(0x3aba563378fa2a07, 0x9ddfea08eb382d69) == 0x4c3938e6368677df
    ensures Mul64(0x99f02e8649a32625, 0x9ddfea08eb382d69) == 0x27db92e230b7262d
    ensures Mul64(0x27db92e230b7699a, 0x9ddfea08eb382d69) == 0x517c1835b07a622a
    ensures Mul64(0xab7761e83048e2b4, 0x9ddfea08eb382d69) == 0xdf960e65711e9fd4
    ensures Mul64(0xe2569b5ed415f958, 0x9ddfea08eb382d69) == 0xfa86309f2d17bd18
    ensures Mul64(0xfa86309f2d164814, 0x9ddfea08eb382d69) == 0xeccbc5e0892f1434
    ensures Mul64(0xbdb7ddd53955761e, 0x9ddfea08eb382d69) == 0x97739297ea60b84e
    ensures Mul64(0xc60f8aa25a1bf483, 0x9ddfea08eb382d69) == 0x077628179d1a50bb
  {
  }

  lemma {:induction false} FortyFiveLastB()
    ensures Mul64(0x077628179d1a5e57, 0x9ddfea08eb382d69) == 0xd2bba363926dfcaf
  {
  }

  lemma {:induction false} FortyFiveLastC()
    ensures Xor64(0xef73405307dfe38f, 0xd5c916607f25c988) == 0x3aba563378fa2a07
  {
    hide Xor64;
    LongXorIs(Hex(XE, XF, X7, X3, X4, X0, X5, X3), Hex(X0, X7, XD, XF, XE, X3, X8, XF),
              Hex(XD, X5, XC, X9, X1, X6, X6, X0), Hex(X7, XF, X2, X5, XC, X9, X8, X8),
              0xef734053, 0x07dfe38f, 0xd5c91660, 0x7f25c988, 0x3aba5633, 0x78fa2a07, 0xef73405307dfe38f, 0xd5c916607f25c988, 0x3aba563378fa2a07);
  }

  lemma {:induction false} FortyFiveLastD()
    ensures ShiftMix(0x4c3938e6368677df) == 0x4c3938e63686efad
  {
    hide ShiftMix;
    ShiftMixIs(Hex(X4, XC, X3, X9, X3, X8, XE, X6), Hex(X3, X6, X8, X6, X7, X7, XD, XF),
               Hex(X0, X0, X0, X0, X9, X8, X7, X2), 0x4c3938e6, 0x368677df, 0x09872, 0x3686efad, 0x4c3938e6368677df, 0x4c3938e63686efad);
  }

  lemma {:induction false} FortyFiveLastE()
    ensures Xor64(0xd5c916607f25c988, 0x4c3938e63686efad) == 0x99f02e8649a32625
  {
    hide Xor64;
    LongXorIs(Hex(XD, X5, XC, X9, X1, X6, X6, X0), Hex(X7, XF, X2, X5, XC, X9, X8, X8),
              Hex(X4, XC, X3, X9, X3, X8, XE, X6), Hex(X3, X6, X8, X6, XE, XF, XA, XD),
              0xd5c91660, 0x7f25c988, 0x4c3938e6, 0x3686efad, 0x99f02e86, 0x49a32625, 0xd5c916607f25c988, 0x4c3938e63686efad, 0x99f02e8649a32625);
  }

  lemma {:induction false} FortyFiveLastF()
    ensures ShiftMix(0x27db92e230b7262d) == 0x27db92e230b7699a
  {
    hide ShiftMix;
    ShiftMixIs(Hex(X2, X7, XD, XB, X9, X2, XE, X2), Hex(X3, X0, XB, X7, X2, X6, X2, XD),
               Hex(X0, X0, X0, X0, X4, XF, XB, X7), 0x27db92e2, 0x30b7262d, 0x04fb7, 0x30b7699a, 0x27db92e230b7262d, 0x27db92e230b7699a);
  }

  lemma {:induction false} FortyFiveLastG()
    ensures Xor64(0x96b7f4d395423b14, 0x3dc0953ba50ad9a0) == 0xab7761e83048e2b4
  {
    hide Xor64;
    LongXorIs(Hex(X9, X6, XB, X7, XF, X4, XD, X3), Hex(X9, X5, X4, X2, X3, XB, X1, X4),
              Hex(X3, XD, XC, X0, X9, X5, X3, XB), Hex(XA, X5, X0, XA, XD, X9, XA, X0),
              0x96b7f4d3, 0x95423b14, 0x3dc0953b, 0xa50ad9a0, 0xab7761e8, 0x3048e2b4, 0x96b7f4d395423b14, 0x3dc0953ba50ad9a0, 0xab7761e83048e2b4);
  }

  lemma {:induction false} FortyFiveLastH()
    ensures ShiftMix(0xdf960e65711e9fd4) == 0xdf960e65711f20f8
  {
    hide ShiftMix;
    ShiftMixIs(Hex(XD, XF, X9, X6, X0, XE, X6, X5), Hex(X7, X1, X1, XE, X9, XF, XD, X4),
               Hex(X0, X0, X0, X1, XB, XF, X2, XC), 0xdf960e65, 0x711e9fd4, 0x1bf2c, 0x711f20f8, 0xdf960e65711e9fd4, 0xdf960e65711f20f8);
  }

  lemma {:induction false} FortyFiveLastI()
    ensures Xor64(0x3dc0953ba50ad9a0, 0xdf960e65711f20f8) == 0xe2569b5ed415f958
  {
    hide Xor64;
    LongXorIs(Hex(X3, XD, XC, X0, X9, X5, X3, XB), Hex(XA, X5, X0, XA, XD, X9, XA, X0),
              Hex(XD, XF, X9, X6, X0, XE, X6, X5), Hex(X7, X1, X1, XF, X2, X0, XF, X8),
              0x3dc0953b, 0xa50ad9a0, 0xdf960e65, 0x711f20f8, 0xe2569b5e, 0xd415f958, 0x3dc0953ba50ad9a0, 0xdf960e65711f20f8, 0xe2569b5ed415f958);
  }

  lemma {:induction false} FortyFiveLastJ()
    ensures ShiftMix(0xfa86309f2d17bd18) == 0xfa86309f2d164814
  {
    hide ShiftMix;
    ShiftMixIs(Hex(XF, XA, X8, X6, X3, X0, X9, XF), Hex(X2, XD, X1, X7, XB, XD, X1, X8),
               Hex(X0, X0, X0, X1, XF, X5, X0, XC), 0xfa86309f, 0x2d17bd18, 0x1f50c, 0x2d164814, 0xfa86309f2d17bd18, 0xfa86309f2d164814);
  }

  lemma {:induction false} FortyFiveLastK()
    ensures Xor64(0x517c1835b07a622a, 0xeccbc5e0892f1434) == 0xbdb7ddd53955761e
  {
    hide Xor64;
    LongXorIs(Hex(X5, X1, X7, XC, X1, X8, X3, X5), Hex(XB, X0, X7, XA, X6, X2, X2, XA),
              Hex(XE, XC, XC, XB, XC, X5, XE, X0), Hex(X8, X9, X2, XF, X1, X4, X3, X4),
              0x517c1835, 0xb07a622a, 0xeccbc5e0, 0x892f1434, 0xbdb7ddd5, 0x3955761e, 0x517c1835b07a622a, 0xeccbc5e0892f1434, 0xbdb7ddd53955761e);
  }

  lemma {:induction false} FortyFiveLastL()
    ensures Xor64(0xeccbc5e0892f1434, 0x517c1835b07a622a) == 0xbdb7ddd53955761e
  {
    hide Xor64;
    LongXorIs(Hex(XE, XC, XC, XB, XC, X5, XE, X0), Hex(X8, X9, X2, XF, X1, X4, X3, X4),
              Hex(X5, X1, X7, XC, X1, X8, X3, X5), Hex(XB, X0, X7, XA, X6, X2, X2, XA),
              0xeccbc5e0, 0x892f1434, 0x517c1835, 0xb07a622a, 0xbdb7ddd5, 0x3955761e, 0xeccbc5e0892f1434, 0x517c1835b07a622a, 0xbdb7ddd53955761e);
  }

  lemma {:induction false} FortyFiveLastM()
    ensures ShiftMix(0x97739297ea60b84e) == 0x97739297ea6196a9
  {
    hide ShiftMix;
    ShiftMixIs(Hex(X9, X7, X7, X3, X9, X2, X9, X7), Hex(XE, XA, X6, X0, XB, X8, X4, XE),
               Hex(X0, X0, X0, X1, X2, XE, XE, X7), 0x97739297, 0xea60b84e, 0x12ee7, 0xea6196a9, 0x97739297ea60b84e, 0x97739297ea6196a9);
  }

  lemma {:induction false} FortyFiveLastN()
    ensures Xor64(0x517c1835b07a622a, 0x97739297ea6196a9) == 0xc60f8aa25a1bf483
  {
    hide Xor64;
    LongXorIs(Hex(X5, X1, X7, XC, X1, X8, X3, X5), Hex(XB, X0, X7, XA, X6, X2, X2, XA),
              Hex(X9, X7, X7, X3, X9, X2, X9, X7), Hex(XE, XA, X6, X1, X9, X6, XA, X9),
              0x517c1835, 0xb07a622a, 0x97739297, 0xea6196a9, 0xc60f8aa2, 0x5a1bf483, 0x517c1835b07a622a, 0x97739297ea6196a9, 0xc60f8aa25a1bf483);
  }

  lemma {:induction false} FortyFiveLastO()
    ensures ShiftMix(0x077628179d1a50bb) == 0x077628179d1a5e57
  {
    hide ShiftMix;
    ShiftMixIs(Hex(X0, X7, X7, X6, X2, X8, X1, X7), Hex(X9, XD, X1, XA, X5, X0, XB, XB),
               Hex(X0, X0, X0, X0, X0, XE, XE, XC), 0x07762817, 0x9d1a50bb, 0x00eec, 0x9d1a5e57, 0x077628179d1a50bb, 0x077628179d1a5e57);
  }

  lemma {:induction false} FortyFiveEnds()
    ensures MurmurFinish(MurmurState(0xef73405307dfe38f, 0x3dc0953ba50ad9a0, 0xd5c916607f25c988, 0x96b7f4d395423b14)) == Pair(0xbdb7ddd53955761e, 0xd2bba363926dfcaf)
  {
    hide Add64, Sub64, Mul64, Xor64, Rotate64, ShiftMix, Bswap64, FetchAll, Fetch64, Fetch32, Count;
    FortyFiveLastA();
    FortyFiveLastB();
    FortyFiveLastC();
    FortyFiveLastD();
    FortyFiveLastE();
    FortyFiveLastF();
    FortyFiveLastG();
    FortyFiveLastH();
    FortyFiveLastI();
    FortyFiveLastJ();
    FortyFiveLastK();
    FortyFiveLastL();
    FortyFiveLastM();
    FortyFiveLastN();
    FortyFiveLastO();
  }

  lemma {:induction false} SeedOf(n: nat)
    requires 16 <= n <= 256
    ensures Fetch64(Count(0, n), 0) == 0x0706050403020100 && Add64(Fetch64(Count(0, n), 8), K0) == 0xd2b3d568a2d53a2f
  {
    hide Fetch64, Count;
    CountFetch(0, n, 0);
    CountFetch(0, n, 8);
  }

  lemma {:induction false} FortyFiveHash()
    ensures CityHash128(Count(0, 45)) == Pair(0xbdb7ddd53955761e, 0xd2bba363926dfcaf)
  {
    hide MurmurStart, MurmurStep, MurmurFinish, FetchAll, Count, Fetch64, Add64;
    CountRest(0, 45);
    SeedOf(45);
    FortyFiveStarts();
    FortyFiveWords();
    FortyFiveSteps();
    FortyFiveEnds();
    OneMurmur(MurmurStart(Count(16, 29), Pair(0x0706050403020100, 0xd2b3d568a2d53a2f)), Count(16, 29));
  }

  lemma {:induction false} OneMurmur(st: MurmurState, s: seq<Byte>)
    requires |s| >= 16
    ensures Murmurs(st, s, 1) == MurmurStep(st, FetchAll(s, MurmurOffsets(0)))
  {
    hide MurmurStep, FetchAll;
    assert Murmurs(st, s, 0) == st;
  }

  lemma {:induction false} SeededStartWords()
    ensures FetchAll(Count(16, 130), SeedOffsets()) == [0x1716151413121110, 0x1f1e1d1c1b1a1918, 0x6f6e6d6c6b6a6968]
  {
    hide Fetch64, Count;
    CountFetch(16, 130, 0);
    CountFetch(16, 130, 8);
    CountFetch(16, 130, 88);
  }

  lemma {:induction false} SeededStateA()
    ensures Mul64(0x0000000000000082, 0xb492b66fbe98f273) == 0xb280a4bec9ab1e66
    ensures Mul64(0xb1838e26e42e3310, 0xb492b66fbe98f273) == 0x8660e8705e861030
    ensures Add64(0x8660e8705e861030, 0x1716151413121110) == 0x9d76fd8471982140
    ensures Mul64(0x611c660850275dbf, 0xb492b66fbe98f273) == 0xb947f045a3b5aacd
    ensures Add64(0xb947f045a3b5aacd, 0x1f1e1d1c1b1a1918) == 0xd8660d61becfc3e5
    ensures Add64(0xd2b3d568a2d53a2f, 0xb280a4bec9ab1e66) == 0x85347a276c805895
    ensures Mul64(0xed900b12b0a68f44, 0xb492b66fbe98f273) == 0xdb3b9c1856a0a38c
    ensures Add64(0xdb3b9c1856a0a38c, 0x0706050403020100) == 0xe241a11c59a2a48c
  {
  }

  lemma {:induction false} SeededStateB()
    ensures Add64(0x0706050403020100, 0x6f6e6d6c6b6a6968) == 0x767472706e6c6a68
    ensures Mul64(0xa3938373635343b3, 0xb492b66fbe98f273) == 0x5913830660ae9f69
  {
  }

  lemma {:induction false} SeededStateC()
    ensures Rotate64(0x662163071c4dc85c, 49) == 0xb1838e26e42e3310
    ensures Rotate64(0x9d76fd8471982140, 42) == 0x611c660850275dbf
    ensures Rotate64(0x85347a276c805895, 35) == 0xed900b12b0a68f44
  {
    hide Rotate64, Pow2;
    Powers();
    LowPowers();
    HighPowers();
    LongTurnIs(0x662163071c4dc85c, 49, 0x2000000000000, 0x8000, 0x0000000000003310, 0xb1838e26e42e0000, 0xb1838e26e42e3310);
    LongTurnIs(0x9d76fd8471982140, 42, 0x40000000000, 0x400000, 0x0000000000275dbf, 0x611c660850000000, 0x611c660850275dbf);
    LongTurnIs(0x85347a276c805895, 35, 0x800000000, 0x20000000, 0x0000000010a68f44, 0xed900b12a0000000, 0xed900b12b0a68f44);
  }

  lemma {:induction false} SeededStateD()
    ensures Rotate64(0x767472706e6c6a68, 53) == 0xa3938373635343b3
  {
    hide Rotate64, Pow2;
    Powers();
    LowPowers();
    HighPowers();
    LongTurnIs(0x767472706e6c6a68, 53, 0x20000000000000, 0x800, 0x00000000000003b3, 0xa393837363534000, 0xa3938373635343b3);
  }

  lemma {:induction false} SeededStateE()
    ensures Xor64(0xd2b3d568a2d53a2f, 0xb492b66fbe98f273) == 0x662163071c4dc85c
  {
    hide Xor64;
    LongXorIs(Hex(XD, X2, XB, X3, XD, X5, X6, X8), Hex(XA, X2, XD, X5, X3, XA, X2, XF),
              Hex(XB, X4, X9, X2, XB, X6, X6, XF), Hex(XB, XE, X9, X8, XF, X2, X7, X3),
              0xd2b3d568, 0xa2d53a2f, 0xb492b66f, 0xbe98f273, 0x66216307, 0x1c4dc85c, 0xd2b3d568a2d53a2f, 0xb492b66fbe98f273, 0x662163071c4dc85c);
  }

  lemma {:induction false} SeededStates()
    ensures SeedState(Count(16, 130), Pair(0x0706050403020100, 0xd2b3d568a2d53a2f)) == State(0x0706050403020100, 0xd2b3d568a2d53a2f, 0xb280a4bec9ab1e66, Pair(0x9d76fd8471982140, 0xd8660d61becfc3e5), Pair(0xe241a11c59a2a48c, 0x5913830660ae9f69))
  {
    hide Add64, Sub64, Mul64, Xor64, Rotate64, ShiftMix, Bswap64, FetchAll, Fetch64, Fetch32, Count;
    SeededStartWords();
    SeededStateA();
    SeededStateB();
    SeededStateC();
    SeededStateD();
    SeededStateE();
  }

  lemma {:induction false} SeededFirstWords()
    ensures FetchAll(Count(16, 130), BlockOffsets(0)) == [0x1716151413121110, 0x1f1e1d1c1b1a1918, 0x2726252423222120, 0x2f2e2d2c2b2a2928, 0x3736353433323130, 0x3f3e3d3c3b3a3938, 0x4746454443424140, 0x4f4e4d4c4b4a4948]
  {
    hide Fetch64, Count;
    CountFetch(16, 130, 0);
    CountFetch(16, 130, 8);
    CountFetch(16, 130, 16);
    CountFetch(16, 130, 24);
    CountFetch(16, 130, 32);
    CountFetch(16, 130, 40);
    CountFetch(16, 130, 48);
    CountFetch(16, 130, 56);
  }

  lemma {:induction false} SeededFirstA()
    ensures Add64(0x0706050403020100, 0xd2b3d568a2d53a2f) == 0xd9b9da6ca5d73b2f
    ensures Add64(0xd9b9da6ca5d73b2f, 0x9d76fd8471982140) == 0x7730d7f1176f5c6f
    ensures Add64(0x7730d7f1176f5c6f, 0x1f1e1d1c1b1a1918) == 0x964ef50d32897587
    ensures Mul64(0x69944bac3cb277a8, 0xb492b66fbe98f273) == 0xf0baa05db5089078
    ensures Add64(0xd2b3d568a2d53a2f, 0xd8660d61becfc3e5) == 0xab19e2ca61a4fe14
    ensures Add64(0xab19e2ca61a4fe14, 0x4746454443424140) == 0xf260280ea4e73f54
    ensures Mul64(0x03a939cfd53c980a, 0xb492b66fbe98f273) == 0x78660d17c3e1c07e
    ensures Add64(0x9d76fd8471982140, 0x3f3e3d3c3b3a3938) == 0xdcb53ac0acd25a78
  {
  }

  lemma {:induction false} SeededFirstB()
    ensures Add64(0x78660d17c3e1c07e, 0xdcb53ac0acd25a78) == 0x551b47d870b41af6
    ensures Add64(0xb280a4bec9ab1e66, 0xe241a11c59a2a48c) == 0x94c245db234dc2f2
    ensures Mul64(0x91a6e1794a6122ed, 0xb492b66fbe98f273) == 0xf270d627df5eba77
    ensures Mul64(0xd8660d61becfc3e5, 0xb492b66fbe98f273) == 0x5a1aa654647b79df
    ensures Add64(0xa9a9235bd5a60f11, 0xe241a11c59a2a48c) == 0x8beac4782f48b39d
    ensures Add64(0x5a1aa654647b79df, 0x1716151413121110) == 0x7130bb68778d8aef
    ensures Add64(0x8beac4782f48b39d, 0x7130bb68778d8aef) == 0xfd1b7fe0a6d63e8c
    ensures Add64(0xfd1b7fe0a6d63e8c, 0x2f2e2d2c2b2a2928) == 0x2c49ad0cd20067b4
  {
  }

  lemma {:induction false} SeededFirstC()
    ensures Add64(0x7130bb68778d8aef, 0x1f1e1d1c1b1a1918) == 0x904ed88492a7a407
    ensures Add64(0x904ed88492a7a407, 0x2726252423222120) == 0xb774fda8b5c9c527
    ensures Add64(0xb774fda8b5c9c527, 0x2f2e2d2c2b2a2928) == 0xe6a32ad4e0f3ee4f
    ensures Add64(0x033da1624d686690, 0xda8b5c9c527b774f) == 0xddc8fdfe9fe3dddf
    ensures Add64(0xddc8fdfe9fe3dddf, 0x7130bb68778d8aef) == 0x4ef9b967177168ce
    ensures Add64(0xf270d627df5eba77, 0x5913830660ae9f69) == 0x4b84592e400d59e0
    ensures Add64(0x551b47d870b41af6, 0x2726252423222120) == 0x7c416cfc93d63c16
    ensures Add64(0x4b84592e400d59e0, 0x3736353433323130) == 0x82ba8e62733f8b10
  {
  }

  lemma {:induction false} SeededFirstD()
    ensures Add64(0x7c416cfc93d63c16, 0x82ba8e62733f8b10) == 0xfefbfb5f0715c726
    ensures Add64(0xfefbfb5f0715c726, 0x4f4e4d4c4b4a4948) == 0x4e4a48ab5260106e
    ensures Add64(0x82ba8e62733f8b10, 0x3f3e3d3c3b3a3938) == 0xc1f8cb9eae79c448
    ensures Add64(0xc1f8cb9eae79c448, 0x4746454443424140) == 0x093f10e2f1bc0588
    ensures Add64(0x093f10e2f1bc0588, 0x4f4e4d4c4b4a4948) == 0x588d5e2f3d064ed0
    ensures Add64(0x0083727252455a93, 0x0e2f1bc0588093f1) == 0x0eb28e32aac5ee84
    ensures Add64(0x0eb28e32aac5ee84, 0x82ba8e62733f8b10) == 0x916d1c951e057994
  {
  }

  lemma {:induction false} SeededFirstE()
    ensures Rotate64(0x964ef50d32897587, 37) == 0x69944bac3cb277a8
    ensures Rotate64(0xf260280ea4e73f54, 42) == 0x03a939cfd53c980a
    ensures Rotate64(0x94c245db234dc2f2, 33) == 0x91a6e1794a6122ed
  {
    hide Rotate64, Pow2;
    Powers();
    LowPowers();
    HighPowers();
    LongTurnIs(0x964ef50d32897587, 37, 0x2000000000, 0x8000000, 0x0000000004b277a8, 0x69944bac38000000, 0x69944bac3cb277a8);
    LongTurnIs(0xf260280ea4e73f54, 42, 0x40000000000, 0x400000, 0x00000000003c980a, 0x03a939cfd5000000, 0x03a939cfd53c980a);
    LongTurnIs(0x94c245db234dc2f2, 33, 0x200000000, 0x80000000, 0x000000004a6122ed, 0x91a6e17900000000, 0x91a6e1794a6122ed);
  }

  lemma {:induction false} SeededFirstF()
    ensures Rotate64(0x2c49ad0cd20067b4, 21) == 0x033da1624d686690
    ensures Rotate64(0xb774fda8b5c9c527, 44) == 0xda8b5c9c527b774f
    ensures Rotate64(0x4e4a48ab5260106e, 21) == 0x0083727252455a93
  {
    hide Rotate64, Pow2;
    Powers();
    LowPowers();
    HighPowers();
    LongTurnIs(0x2c49ad0cd20067b4, 21, 0x200000, 0x80000000000, 0x000001624d686690, 0x033da00000000000, 0x033da1624d686690);
    LongTurnIs(0xb774fda8b5c9c527, 44, 0x100000000000, 0x100000, 0x00000000000b774f, 0xda8b5c9c52700000, 0xda8b5c9c527b774f);
    LongTurnIs(0x4e4a48ab5260106e, 21, 0x200000, 0x80000000000, 0x0000027252455a93, 0x0083700000000000, 0x0083727252455a93);
  }

  lemma {:induction false} SeededFirstG()
    ensures Rotate64(0x093f10e2f1bc0588, 44) == 0x0e2f1bc0588093f1
  {
    hide Rotate64, Pow2;
    Powers();
    LowPowers();
    HighPowers();
    LongTurnIs(0x093f10e2f1bc0588, 44, 0x100000000000, 0x100000, 0x00000000000093f1, 0x0e2f1bc058800000, 0x0e2f1bc0588093f1);
  }

  lemma {:induction false} SeededFirstH()
    ensures Xor64(0xf0baa05db5089078, 0x5913830660ae9f69) == 0xa9a9235bd5a60f11
  {
    hide Xor64;
    LongXorIs(Hex(XF, X0, XB, XA, XA, X0, X5, XD), Hex(XB, X5, X0, X8, X9, X0, X7, X8),
              Hex(X5, X9, X1, X3, X8, X3, X0, X6), Hex(X6, X0, XA, XE, X9, XF, X6, X9),
              0xf0baa05d, 0xb5089078, 0x59138306, 0x60ae9f69, 0xa9a9235b, 0xd5a60f11, 0xf0baa05db5089078, 0x5913830660ae9f69, 0xa9a9235bd5a60f11);
  }

  lemma {:induction false} SeededFirsts()
    ensures BlockStep(State(0x0706050403020100, 0xd2b3d568a2d53a2f, 0xb280a4bec9ab1e66, Pair(0x9d76fd8471982140, 0xd8660d61becfc3e5), Pair(0xe241a11c59a2a48c, 0x5913830660ae9f69)), [0x1716151413121110, 0x1f1e1d1c1b1a1918, 0x2726252423222120, 0x2f2e2d2c2b2a2928, 0x3736353433323130, 0x3f3e3d3c3b3a3938, 0x4746454443424140, 0x4f4e4d4c4b4a4948]) == State(0xf270d627df5eba77, 0x551b47d870b41af6, 0xa9a9235bd5a60f11, Pair(0xe6a32ad4e0f3ee4f, 0x4ef9b967177168ce), Pair(0x588d5e2f3d064ed0, 0x916d1c951e057994))
  {
    hide Add64, Sub64, Mul64, Xor64, Rotate64, ShiftMix, Bswap64, FetchAll, Fetch64, Fetch32, Count;
    SeededFirstA();
    SeededFirstB();
    SeededFirstC();
    SeededFirstD();
    SeededFirstE();
    SeededFirstF();
    SeededFirstG();
    SeededFirstH();
  }

  lemma {:induction false} SeededSecondWords()
    ensures FetchAll(Count(16, 130), BlockOffsets(64)) == [0x5756555453525150, 0x5f5e5d5c5b5a5958, 0x6766656463626160, 0x6f6e6d6c6b6a6968, 0x7776757473727170, 0x7f7e7d7c7b7a7978, 0x8786858483828180, 0x8f8e8d8c8b8a8988]
  {
    hide Fetch64, Count;
    CountFetch(16, 130, 64);
    CountFetch(16, 130, 72);
    CountFetch(16, 130, 80);
    CountFetch(16, 130, 88);
    CountFetch(16, 130, 96);
    CountFetch(16, 130, 104);
    CountFetch(16, 130, 112);
    CountFetch(16, 130, 120);
  }

  lemma {:induction false} SeededSecondA()
    ensures Add64(0xf270d627df5eba77, 0x551b47d870b41af6) == 0x478c1e005012d56d
    ensures Add64(0x478c1e005012d56d, 0xe6a32ad4e0f3ee4f) == 0x2e2f48d53106c3bc
    ensures Add64(0x2e2f48d53106c3bc, 0x5f5e5d5c5b5a5958) == 0x8d8da6318c611d14
    ensures Mul64(0x8c6308e8a46c6d31, 0xb492b66fbe98f273) == 0xbda9339a8f055f03
    ensures Add64(0x551b47d870b41af6, 0x4ef9b967177168ce) == 0xa415013f882583c4
    ensures Add64(0xa415013f882583c4, 0x8786858483828180) == 0x2b9b86c40ba80544
    ensures Mul64(0xb102ea01510ae6e1, 0xb492b66fbe98f273) == 0xf4a2a496c9be6913
    ensures Add64(0xe6a32ad4e0f3ee4f, 0x7f7e7d7c7b7a7978) == 0x6621a8515c6e67c7
  {
  }

  lemma {:induction false} SeededSecondB()
    ensures Add64(0xf4a2a496c9be6913, 0x6621a8515c6e67c7) == 0x5ac44ce8262cd0da
    ensures Add64(0xa9a9235bd5a60f11, 0x588d5e2f3d064ed0) == 0x0236818b12ac5de1
    ensures Mul64(0x89562ef0811b40c5, 0xb492b66fbe98f273) == 0x57ec75c16d70527f
    ensures Mul64(0x4ef9b967177168ce, 0xb492b66fbe98f273) == 0x8c38b9e9db54d08a
    ensures Add64(0x2cc42f0f91002697, 0x588d5e2f3d064ed0) == 0x85518d3ece067567
    ensures Add64(0x8c38b9e9db54d08a, 0x5756555453525150) == 0xe38f0f3e2ea721da
    ensures Add64(0x85518d3ece067567, 0xe38f0f3e2ea721da) == 0x68e09c7cfcad9741
    ensures Add64(0x68e09c7cfcad9741, 0x6f6e6d6c6b6a6968) == 0xd84f09e9681800a9
  {
  }

  lemma {:induction false} SeededSecondC()
    ensures Add64(0xe38f0f3e2ea721da, 0x5f5e5d5c5b5a5958) == 0x42ed6c9a8a017b32
    ensures Add64(0x42ed6c9a8a017b32, 0x6766656463626160) == 0xaa53d1feed63dc92
    ensures Add64(0xaa53d1feed63dc92, 0x6f6e6d6c6b6a6968) == 0x19c23f6b58ce45fa
    ensures Add64(0xc0054ec2784f4b40, 0x1feed63dc92aa53d) == 0xdff425004179f07d
    ensures Add64(0xdff425004179f07d, 0xe38f0f3e2ea721da) == 0xc383343e70211257
    ensures Add64(0x57ec75c16d70527f, 0x916d1c951e057994) == 0xe95992568b75cc13
    ensures Add64(0x5ac44ce8262cd0da, 0x6766656463626160) == 0xc22ab24c898f323a
    ensures Add64(0xe95992568b75cc13, 0x7776757473727170) == 0x60d007cafee83d83
  {
  }

  lemma {:induction false} SeededSecondD()
    ensures Add64(0xc22ab24c898f323a, 0x60d007cafee83d83) == 0x22faba1788776fbd
    ensures Add64(0x22faba1788776fbd, 0x8f8e8d8c8b8a8988) == 0xb28947a41401f945
    ensures Add64(0x60d007cafee83d83, 0x7f7e7d7c7b7a7978) == 0xe04e85477a62b6fb
    ensures Add64(0xe04e85477a62b6fb, 0x8786858483828180) == 0x67d50acbfde5387b
    ensures Add64(0x67d50acbfde5387b, 0x8f8e8d8c8b8a8988) == 0xf7639858896fc203
    ensures Add64(0x0fca2d944a3d20a0, 0xacbfde5387b67d50) == 0xbc8a0be7d1f39df0
    ensures Add64(0xbc8a0be7d1f39df0, 0x60d007cafee83d83) == 0x1d5a13b2d0dbdb73
  {
  }

  lemma {:induction false} SeededSecondE()
    ensures Rotate64(0x8d8da6318c611d14, 37) == 0x8c6308e8a46c6d31
    ensures Rotate64(0x2b9b86c40ba80544, 42) == 0xb102ea01510ae6e1
    ensures Rotate64(0x0236818b12ac5de1, 33) == 0x89562ef0811b40c5
  {
    hide Rotate64, Pow2;
    Powers();
    LowPowers();
    HighPowers();
    LongTurnIs(0x8d8da6318c611d14, 37, 0x2000000000, 0x8000000, 0x00000000046c6d31, 0x8c6308e8a0000000, 0x8c6308e8a46c6d31);
    LongTurnIs(0x2b9b86c40ba80544, 42, 0x40000000000, 0x400000, 0x00000000000ae6e1, 0xb102ea0151000000, 0xb102ea01510ae6e1);
    LongTurnIs(0x0236818b12ac5de1, 33, 0x200000000, 0x80000000, 0x00000000011b40c5, 0x89562ef080000000, 0x89562ef0811b40c5);
  }

  lemma {:induction false} SeededSecondF()
    ensures Rotate64(0xd84f09e9681800a9, 21) == 0xc0054ec2784f4b40
    ensures Rotate64(0xaa53d1feed63dc92, 44) == 0x1feed63dc92aa53d
    ensures Rotate64(0xb28947a41401f945, 21) == 0x0fca2d944a3d20a0
  {
    hide Rotate64, Pow2;
    Powers();
    LowPowers();
    HighPowers();
    LongTurnIs(0xd84f09e9681800a9, 21, 0x200000, 0x80000000000, 0x000006c2784f4b40, 0xc005480000000000, 0xc0054ec2784f4b40);
    LongTurnIs(0xaa53d1feed63dc92, 44, 0x100000000000, 0x100000, 0x00000000000aa53d, 0x1feed63dc9200000, 0x1feed63dc92aa53d);
    LongTurnIs(0xb28947a41401f945, 21, 0x200000, 0x80000000000, 0x000005944a3d20a0, 0x0fca280000000000, 0x0fca2d944a3d20a0);
  }

  lemma {:induction false} SeededSecondG()
    ensures Rotate64(0x67d50acbfde5387b, 44) == 0xacbfde5387b67d50
  {
    hide Rotate64, Pow2;
    Powers();
    LowPowers();
    HighPowers();
    LongTurnIs(0x67d50acbfde5387b, 44, 0x100000000000, 0x100000, 0x0000000000067d50, 0xacbfde5387b00000, 0xacbfde5387b67d50);
  }

  lemma {:induction false} SeededSecondH()
    ensures Xor64(0xbda9339a8f055f03, 0x916d1c951e057994) == 0x2cc42f0f91002697
  {
    hide Xor64;
    LongXorIs(Hex(XB, XD, XA, X9, X3, X3, X9, XA), Hex(X8, XF, X0, X5, X5, XF, X0, X3),
              Hex(X9, X1, X6, XD, X1, XC, X9, X5), Hex(X1, XE, X0, X5, X7, X9, X9, X4),
              0xbda9339a, 0x8f055f03, 0x916d1c95, 0x1e057994, 0x2cc42f0f, 0x91002697, 0xbda9339a8f055f03, 0x916d1c951e057994, 0x2cc42f0f91002697);
  }

  lemma {:induction false} SeededSeconds()
    ensures BlockStep(State(0xf270d627df5eba77, 0x551b47d870b41af6, 0xa9a9235bd5a60f11, Pair(0xe6a32ad4e0f3ee4f, 0x4ef9b967177168ce), Pair(0x588d5e2f3d064ed0, 0x916d1c951e057994)), [0x5756555453525150, 0x5f5e5d5c5b5a5958, 0x6766656463626160, 0x6f6e6d6c6b6a6968, 0x7776757473727170, 0x7f7e7d7c7b7a7978, 0x8786858483828180, 0x8f8e8d8c8b8a8988]) == State(0x57ec75c16d70527f, 0x5ac44ce8262cd0da, 0x2cc42f0f91002697, Pair(0x19c23f6b58ce45fa, 0xc383343e70211257), Pair(0xf7639858896fc203, 0x1d5a13b2d0dbdb73))
  {
    hide Add64, Sub64, Mul64, Xor64, Rotate64, ShiftMix, Bswap64, FetchAll, Fetch64, Fetch32, Count;
    SeededSecondA();
    SeededSecondB();
    SeededSecondC();
    SeededSecondD();
    SeededSecondE();
    SeededSecondF();
    SeededSecondG();
    SeededSecondH();
  }

  lemma {:induction false} SeededTurnA()
    ensures Add64(0x19c23f6b58ce45fa, 0x2cc42f0f91002697) == 0x46866e7ae9ce6c91
    ensures Mul64(0x373d74e73648a343, 0xc3a5c85c97cb3127) == 0xc6eff8972771b235
    ensures Add64(0x57ec75c16d70527f, 0xc6eff8972771b235) == 0x1edc6e5894e204b4
    ensures Mul64(0x5ac44ce8262cd0da, 0xc3a5c85c97cb3127) == 0xb70239be97ab8b36
    ensures Add64(0xb70239be97ab8b36, 0x9686dedb98ead09d) == 0x4d89189a30965bd3
    ensures Mul64(0x2cc42f0f91002697, 0xc3a5c85c97cb3127) == 0xfd4b0e45c925c801
    ensures Add64(0xfd4b0e45c925c801, 0x2df8407eec730b11) == 0x2b434ec4b598d312
    ensures Mul64(0x19c23f6b58ce45fa, 0xc3a5c85c97cb3127) == 0x4f2ac209f60f8316
  {
  }

  lemma {:induction false} SeededTurnB()
    ensures Mul64(0xf7639858896fc203, 0x0000000000000009) == 0xb2805b1cd4edd21b
  {
  }

  lemma {:induction false} SeededTurnC()
    ensures Rotate64(0x46866e7ae9ce6c91, 49) == 0x373d74e73648a343
    ensures Rotate64(0x1d5a13b2d0dbdb73, 37) == 0x9686dedb98ead09d
    ensures Rotate64(0xf7639858896fc203, 27) == 0x2df8407eec730b11
  {
    hide Rotate64, Pow2;
    Powers();
    LowPowers();
    HighPowers();
    LongTurnIs(0x46866e7ae9ce6c91, 49, 0x2000000000000, 0x8000, 0x0000000000002343, 0x373d74e736488000, 0x373d74e73648a343);
    LongTurnIs(0x1d5a13b2d0dbdb73, 37, 0x2000000000, 0x8000000, 0x0000000000ead09d, 0x9686dedb98000000, 0x9686dedb98ead09d);
    LongTurnIs(0xf7639858896fc203, 27, 0x8000000, 0x2000000000, 0x0000001eec730b11, 0x2df8406000000000, 0x2df8407eec730b11);
  }

  lemma {:induction false} SeededTurns()
    ensures City128.Turn(State(0x57ec75c16d70527f, 0x5ac44ce8262cd0da, 0x2cc42f0f91002697, Pair(0x19c23f6b58ce45fa, 0xc383343e70211257), Pair(0xf7639858896fc203, 0x1d5a13b2d0dbdb73))) == State(0x1edc6e5894e204b4, 0x4d89189a30965bd3, 0x2b434ec4b598d312, Pair(0x4f2ac209f60f8316, 0xc383343e70211257), Pair(0xb2805b1cd4edd21b, 0x1d5a13b2d0dbdb73))
  {
    hide Add64, Sub64, Mul64, Xor64, Rotate64, ShiftMix, Bswap64, FetchAll, Fetch64, Fetch32, Count;
    SeededTurnA();
    SeededTurnB();
    SeededTurnC();
  }

  lemma {:induction false} SeededTailWords()
    ensures FetchAll(Count(16, 130), ChunkOffsets(98)) == [0x7978777675747372, 0x81807f7e7d7c7b7a, 0x8988878685848382, 0x91908f8e8d8c8b8a]
  {
    hide Fetch64, Count;
    CountFetch(16, 130, 98);
    CountFetch(16, 130, 106);
    CountFetch(16, 130, 114);
    CountFetch(16, 130, 122);
  }

  lemma {:induction false} SeededTailA()
    ensures Add64(0x1edc6e5894e204b4, 0x4d89189a30965bd3) == 0x6c6586f2c5786087
    ensures Mul64(0xbcb15e1821db1961, 0xc3a5c85c97cb3127) == 0x2038efb96f276ec7
    ensures Add64(0x2038efb96f276ec7, 0xc383343e70211257) == 0xe3bc23f7df48811e
    ensures Add64(0xb2805b1cd4edd21b, 0x8988878685848382) == 0x3c08e2a35a72559d
    ensures Mul64(0x1edc6e5894e204b4, 0xc3a5c85c97cb3127) == 0xddad74add8112b6c
    ensures Add64(0xddad74add8112b6c, 0x3c08e2a35a72559d) == 0x19b6575132838109
    ensures Add64(0x1d5a13b2d0dbdb73, 0x7978777675747372) == 0x96d28b2946504ee5
    ensures Add64(0x2b434ec4b598d312, 0x96d28b2946504ee5) == 0xc215d9edfbe921f7
  {
  }

  lemma {:induction false} SeededTailB()
    ensures Add64(0x4f2ac209f60f8316, 0xc215d9edfbe921f7) == 0x11409bf7f1f8a50d
    ensures Add64(0x11409bf7f1f8a50d, 0x7978777675747372) == 0x8ab9136e676d187f
    ensures Add64(0xc383343e70211257, 0x8ab9136e676d187f) == 0x4e3c47acd78e2ad6
    ensures Add64(0x4e3c47acd78e2ad6, 0x91908f8e8d8c8b8a) == 0xdfccd73b651ab660
    ensures Add64(0x8ab9136e676d187f, 0x81807f7e7d7c7b7a) == 0x0c3992ece4e993f9
    ensures Add64(0x0c3992ece4e993f9, 0x8988878685848382) == 0x95c21a736a6e177b
    ensures Add64(0x95c21a736a6e177b, 0x91908f8e8d8c8b8a) == 0x2752aa01f7faa305
    ensures Add64(0xd5b306fe66b9db28, 0xa736a6e177b95c21) == 0x7ce9addfde733749
  {
  }

  lemma {:induction false} SeededTailC()
    ensures Add64(0x7ce9addfde733749, 0x8ab9136e676d187f) == 0x07a2c14e45e04fc8
    ensures Add64(0x1d5a13b2d0dbdb73, 0x4f2ac209f60f8316) == 0x6c84d5bcc6eb5e89
    ensures Mul64(0x2752aa01f7faa305, 0xc3a5c85c97cb3127) == 0x979e3e76f859cac3
  {
  }

  lemma {:induction false} SeededTailD()
    ensures Rotate64(0x6c6586f2c5786087, 42) == 0xbcb15e1821db1961
    ensures Rotate64(0xdfccd73b651ab660, 21) == 0xd5b306fe66b9db28
    ensures Rotate64(0x95c21a736a6e177b, 44) == 0xa736a6e177b95c21
  {
    hide Rotate64, Pow2;
    Powers();
    LowPowers();
    HighPowers();
    LongTurnIs(0x6c6586f2c5786087, 42, 0x40000000000, 0x400000, 0x00000000001b1961, 0xbcb15e1821c00000, 0xbcb15e1821db1961);
    LongTurnIs(0xdfccd73b651ab660, 21, 0x200000, 0x80000000000, 0x000006fe66b9db28, 0xd5b3000000000000, 0xd5b306fe66b9db28);
    LongTurnIs(0x95c21a736a6e177b, 44, 0x100000000000, 0x100000, 0x0000000000095c21, 0xa736a6e177b00000, 0xa736a6e177b95c21);
  }

  lemma {:induction false} SeededTails()
    ensures TailStep(State(0x1edc6e5894e204b4, 0x4d89189a30965bd3, 0x2b434ec4b598d312, Pair(0x4f2ac209f60f8316, 0xc383343e70211257), Pair(0xb2805b1cd4edd21b, 0x1d5a13b2d0dbdb73)), [0x7978777675747372, 0x81807f7e7d7c7b7a, 0x8988878685848382, 0x91908f8e8d8c8b8a]) == State(0x19b6575132838109, 0xe3bc23f7df48811e, 0xc215d9edfbe921f7, Pair(0x979e3e76f859cac3, 0x07a2c14e45e04fc8), Pair(0x3c08e2a35a72559d, 0x6c84d5bcc6eb5e89))
  {
    hide Add64, Sub64, Mul64, Xor64, Rotate64, ShiftMix, Bswap64, FetchAll, Fetch64, Fetch32, Count;
    SeededTailA();
    SeededTailB();
    SeededTailC();
    SeededTailD();
  }

  lemma {:induction false} SeededEndA()
    ensures Mul64(0x8e286927cada4bca, 0x9ddfea08eb382d69) == 0xb808e59d950b97da
    ensures Mul64(0x2f96dbeb6d532d08, 0x9ddfea08eb382d69) == 0xd61e928fa7c7e048
    ensures Mul64(0xd61e928fa7c64c75, 0x9ddfea08eb382d69) == 0xfbbd6ea1cc5decfd
    ensures Add64(0xe3bc23f7df48811e, 0xc215d9edfbe921f7) == 0xa5d1fde5db31a315
    ensures Mul64(0x99d91f468143f688, 0x9ddfea08eb382d69) == 0x2692e710bcf605c8
    ensures Mul64(0x1a9a05b3e6841d70, 0x9ddfea08eb382d69) == 0xabbbf5bb05dcc2f0
    ensures Mul64(0xabbbf5bb05dd9587, 0x9ddfea08eb382d69) == 0xaec86cb0fdb30f5f
    ensures Add64(0xfbbd6ea1cc5decfd, 0x07a2c14e45e04fc8) == 0x03602ff0123e3cc5
  {
  }

  lemma {:induction false} SeededEndB()
    ensures Mul64(0x6fe4fa4cd4d5624c, 0x9ddfea08eb382d69) == 0x5bd12536126cad2c
    ensures Mul64(0x3755f08ad4874407, 0x9ddfea08eb382d69) == 0xb2803f8e40f821df
    ensures Mul64(0xb2803f8e40f944df, 0x9ddfea08eb382d69) == 0xe088187c3d207277
    ensures Add64(0xe088187c3d207277, 0xaec86cb0fdb30f5f) == 0x8f50852d3ad381d6
    ensures Add64(0xfbbd6ea1cc5decfd, 0x6c84d5bcc6eb5e89) == 0x6842445e93494b86
    ensures Add64(0xaec86cb0fdb30f5f, 0x07a2c14e45e04fc8) == 0xb66b2dff43935f27
    ensures Mul64(0xde2969a1d0da14a1, 0x9ddfea08eb382d69) == 0x9f9674c14d4ac309
    ensures Mul64(0x29fd593e0ed8a302, 0x9ddfea08eb382d69) == 0xf3508c26a9f235d2
  {
  }

  lemma {:induction false} SeededEndC()
    ensures Mul64(0xf3508c26a9f3d373, 0x9ddfea08eb382d69) == 0x023701c46354f12b
  {
  }

  lemma {:induction false} SeededEndD()
    ensures Xor64(0x19b6575132838109, 0x979e3e76f859cac3) == 0x8e286927cada4bca
  {
    hide Xor64;
    LongXorIs(Hex(X1, X9, XB, X6, X5, X7, X5, X1), Hex(X3, X2, X8, X3, X8, X1, X0, X9),
              Hex(X9, X7, X9, XE, X3, XE, X7, X6), Hex(XF, X8, X5, X9, XC, XA, XC, X3),
              0x19b65751, 0x32838109, 0x979e3e76, 0xf859cac3, 0x8e286927, 0xcada4bca, 0x19b6575132838109, 0x979e3e76f859cac3, 0x8e286927cada4bca);
  }

  lemma {:induction false} SeededEndE()
    ensures ShiftMix(0xb808e59d950b97da) == 0xb808e59d950ae7cb
  {
    hide ShiftMix;
    ShiftMixIs(Hex(XB, X8, X0, X8, XE, X5, X9, XD), Hex(X9, X5, X0, XB, X9, X7, XD, XA),
               Hex(X0, X0, X0, X1, X7, X0, X1, X1), 0xb808e59d, 0x950b97da, 0x17011, 0x950ae7cb, 0xb808e59d950b97da, 0xb808e59d950ae7cb);
  }

  lemma {:induction false} SeededEndF()
    ensures Xor64(0x979e3e76f859cac3, 0xb808e59d950ae7cb) == 0x2f96dbeb6d532d08
  {
    hide Xor64;
    LongXorIs(Hex(X9, X7, X9, XE, X3, XE, X7, X6), Hex(XF, X8, X5, X9, XC, XA, XC, X3),
              Hex(XB, X8, X0, X8, XE, X5, X9, XD), Hex(X9, X5, X0, XA, XE, X7, XC, XB),
              0x979e3e76, 0xf859cac3, 0xb808e59d, 0x950ae7cb, 0x2f96dbeb, 0x6d532d08, 0x979e3e76f859cac3, 0xb808e59d950ae7cb, 0x2f96dbeb6d532d08);
  }

  lemma {:induction false} SeededEndG()
    ensures ShiftMix(0xd61e928fa7c7e048) == 0xd61e928fa7c64c75
  {
    hide ShiftMix;
    ShiftMixIs(Hex(XD, X6, X1, XE, X9, X2, X8, XF), Hex(XA, X7, XC, X7, XE, X0, X4, X8),
               Hex(X0, X0, X0, X1, XA, XC, X3, XD), 0xd61e928f, 0xa7c7e048, 0x1ac3d, 0xa7c64c75, 0xd61e928fa7c7e048, 0xd61e928fa7c64c75);
  }

  lemma {:induction false} SeededEndH()
    ensures Xor64(0xa5d1fde5db31a315, 0x3c08e2a35a72559d) == 0x99d91f468143f688
  {
    hide Xor64;
    LongXorIs(Hex(XA, X5, XD, X1, XF, XD, XE, X5), Hex(XD, XB, X3, X1, XA, X3, X1, X5),
              Hex(X3, XC, X0, X8, XE, X2, XA, X3), Hex(X5, XA, X7, X2, X5, X5, X9, XD),
              0xa5d1fde5, 0xdb31a315, 0x3c08e2a3, 0x5a72559d, 0x99d91f46, 0x8143f688, 0xa5d1fde5db31a315, 0x3c08e2a35a72559d, 0x99d91f468143f688);
  }

  lemma {:induction false} SeededEndI()
    ensures ShiftMix(0x2692e710bcf605c8) == 0x2692e710bcf648ed
  {
    hide ShiftMix;
    ShiftMixIs(Hex(X2, X6, X9, X2, XE, X7, X1, X0), Hex(XB, XC, XF, X6, X0, X5, XC, X8),
               Hex(X0, X0, X0, X0, X4, XD, X2, X5), 0x2692e710, 0xbcf605c8, 0x04d25, 0xbcf648ed, 0x2692e710bcf605c8, 0x2692e710bcf648ed);
  }

  lemma {:induction false} SeededEndJ()
    ensures Xor64(0x3c08e2a35a72559d, 0x2692e710bcf648ed) == 0x1a9a05b3e6841d70
  {
    hide Xor64;
    LongXorIs(Hex(X3, XC, X0, X8, XE, X2, XA, X3), Hex(X5, XA, X7, X2, X5, X5, X9, XD),
              Hex(X2, X6, X9, X2, XE, X7, X1, X0), Hex(XB, XC, XF, X6, X4, X8, XE, XD),
              0x3c08e2a3, 0x5a72559d, 0x2692e710, 0xbcf648ed, 0x1a9a05b3, 0xe6841d70, 0x3c08e2a35a72559d, 0x2692e710bcf648ed, 0x1a9a05b3e6841d70);
  }

  lemma {:induction false} SeededEndK()
    ensures ShiftMix(0xabbbf5bb05dcc2f0) == 0xabbbf5bb05dd9587
  {
    hide ShiftMix;
    ShiftMixIs(Hex(XA, XB, XB, XB, XF, X5, XB, XB), Hex(X0, X5, XD, XC, XC, X2, XF, X0),
               Hex(X0, X0, X0, X1, X5, X7, X7, X7), 0xabbbf5bb, 0x05dcc2f0, 0x15777, 0x05dd9587, 0xabbbf5bb05dcc2f0, 0xabbbf5bb05dd9587);
  }

  lemma {:induction false} SeededEndL()
    ensures Xor64(0x03602ff0123e3cc5, 0x6c84d5bcc6eb5e89) == 0x6fe4fa4cd4d5624c
  {
    hide Xor64;
    LongXorIs(Hex(X0, X3, X6, X0, X2, XF, XF, X0), Hex(X1, X2, X3, XE, X3, XC, XC, X5),
              Hex(X6, XC, X8, X4, XD, X5, XB, XC), Hex(XC, X6, XE, XB, X5, XE, X8, X9),
              0x03602ff0, 0x123e3cc5, 0x6c84d5bc, 0xc6eb5e89, 0x6fe4fa4c, 0xd4d5624c, 0x03602ff0123e3cc5, 0x6c84d5bcc6eb5e89, 0x6fe4fa4cd4d5624c);
  }

  lemma {:induction false} SeededEndM()
    ensures ShiftMix(0x5bd12536126cad2c) == 0x5bd12536126c1a8e
  {
    hide ShiftMix;
    ShiftMixIs(Hex(X5, XB, XD, X1, X2, X5, X3, X6), Hex(X1, X2, X6, XC, XA, XD, X2, XC),
               Hex(X0, X0, X0, X0, XB, X7, XA, X2), 0x5bd12536, 0x126cad2c, 0x0b7a2, 0x126c1a8e, 0x5bd12536126cad2c, 0x5bd12536126c1a8e);
  }

  lemma {:induction false} SeededEndN()
    ensures Xor64(0x6c84d5bcc6eb5e89, 0x5bd12536126c1a8e) == 0x3755f08ad4874407
  {
    hide Xor64;
    LongXorIs(Hex(X6, XC, X8, X4, XD, X5, XB, XC), Hex(XC, X6, XE, XB, X5, XE, X8, X9),
              Hex(X5, XB, XD, X1, X2, X5, X3, X6), Hex(X1, X2, X6, XC, X1, XA, X8, XE),
              0x6c84d5bc, 0xc6eb5e89, 0x5bd12536, 0x126c1a8e, 0x3755f08a, 0xd4874407, 0x6c84d5bcc6eb5e89, 0x5bd12536126c1a8e, 0x3755f08ad4874407);
  }

  lemma {:induction false} SeededEndO()
    ensures ShiftMix(0xb2803f8e40f821df) == 0xb2803f8e40f944df
  {
    hide ShiftMix;
    ShiftMixIs(Hex(XB, X2, X8, X0, X3, XF, X8, XE), Hex(X4, X0, XF, X8, X2, X1, XD, XF),
               Hex(X0, X0, X0, X1, X6, X5, X0, X0), 0xb2803f8e, 0x40f821df, 0x16500, 0x40f944df, 0xb2803f8e40f821df, 0xb2803f8e40f944df);
  }

  lemma {:induction false} SeededEndP()
    ensures Xor64(0x6842445e93494b86, 0xb66b2dff43935f27) == 0xde2969a1d0da14a1
  {
    hide Xor64;
    LongXorIs(Hex(X6, X8, X4, X2, X4, X4, X5, XE), Hex(X9, X3, X4, X9, X4, XB, X8, X6),
              Hex(XB, X6, X6, XB, X2, XD, XF, XF), Hex(X4, X3, X9, X3, X5, XF, X2, X7),
              0x6842445e, 0x93494b86, 0xb66b2dff, 0x43935f27, 0xde2969a1, 0xd0da14a1, 0x6842445e93494b86, 0xb66b2dff43935f27, 0xde2969a1d0da14a1);
  }

  lemma {:induction false} SeededEndQ()
    ensures ShiftMix(0x9f9674c14d4ac309) == 0x9f9674c14d4bfc25
  {
    hide ShiftMix;
    ShiftMixIs(Hex(X9, XF, X9, X6, X7, X4, XC, X1), Hex(X4, XD, X4, XA, XC, X3, X0, X9),
               Hex(X0, X0, X0, X1, X3, XF, X2, XC), 0x9f9674c1, 0x4d4ac309, 0x13f2c, 0x4d4bfc25, 0x9f9674c14d4ac309, 0x9f9674c14d4bfc25);
  }

  lemma {:induction false} SeededEndR()
    ensures Xor64(0xb66b2dff43935f27, 0x9f9674c14d4bfc25) == 0x29fd593e0ed8a302
  {
    hide Xor64;
    LongXorIs(Hex(XB, X6, X6, XB, X2, XD, XF, XF), Hex(X4, X3, X9, X3, X5, XF, X2, X7),
              Hex(X9, XF, X9, X6, X7, X4, XC, X1), Hex(X4, XD, X4, XB, XF, XC, X2, X5),
              0xb66b2dff, 0x43935f27, 0x9f9674c1, 0x4d4bfc25, 0x29fd593e, 0x0ed8a302, 0xb66b2dff43935f27, 0x9f9674c14d4bfc25, 0x29fd593e0ed8a302);
  }

  lemma {:induction false} SeededEndS()
    ensures ShiftMix(0xf3508c26a9f235d2) == 0xf3508c26a9f3d373
  {
    hide ShiftMix;
    ShiftMixIs(Hex(XF, X3, X5, X0, X8, XC, X2, X6), Hex(XA, X9, XF, X2, X3, X5, XD, X2),
               Hex(X0, X0, X0, X1, XE, X6, XA, X1), 0xf3508c26, 0xa9f235d2, 0x1e6a1, 0xa9f3d373, 0xf3508c26a9f235d2, 0xf3508c26a9f3d373);
  }

  lemma {:induction false} SeededEnds()
    ensures Finish128(State(0x19b6575132838109, 0xe3bc23f7df48811e, 0xc215d9edfbe921f7, Pair(0x979e3e76f859cac3, 0x07a2c14e45e04fc8), Pair(0x3c08e2a35a72559d, 0x6c84d5bcc6eb5e89))) == Pair(0x8f50852d3ad381d6, 0x023701c46354f12b)
  {
    hide Add64, Sub64, Mul64, Xor64, Rotate64, ShiftMix, Bswap64, FetchAll, Fetch64, Fetch32, Count;
    SeededEndA();
    SeededEndB();
    SeededEndC();
    SeededEndD();
    SeededEndE();
    SeededEndF();
    SeededEndG();
    SeededEndH();
    SeededEndI();
    SeededEndJ();
    SeededEndK();
    SeededEndL();
    SeededEndM();
    SeededEndN();
    SeededEndO();
    SeededEndP();
    SeededEndQ();
    SeededEndR();
    SeededEndS();
  }

  lemma {:induction false} TwoBlocks(st: State, s: seq<Byte>)
    requires |s| >= 128
    ensures Blocks(st, s, 2) == BlockStep(BlockStep(st, FetchAll(s, BlockOffsets(0))), FetchAll(s, BlockOffsets(64)))
  {
    hide BlockStep, FetchAll;
    OneBlock(st, s);
  }

  lemma {:induction false} OneChunk(st: State, s: seq<Byte>)
    requires |s| >= 32
    ensures Tail(st, s, 1) == TailStep(st, FetchAll(s, ChunkOffsets(|s| - 32)))
  {
    hide TailStep, FetchAll;
    assert Tail(st, s, 0) == st;
  }

  lemma {:induction false} SeededHash()
    ensures CityHash128(Count(0, 146)) == Pair(0x8f50852d3ad381d6, 0x023701c46354f12b)
  {
    hide SeedState, BlockStep, City128.Turn, TailStep, Finish128, FetchAll, Count, Fetch64, Add64, Blocks, Tail;
    CountRest(0, 146);
    SeedOf(146);
    SeededStates();
    SeededFirstWords();
    SeededFirsts();
    SeededSecondWords();
    SeededSeconds();
    SeededTurns();
    SeededTailWords();
    SeededTails();
    SeededEnds();
    TwoBlocks(SeedState(Count(16, 130), Pair(0x0706050403020100, 0xd2b3d568a2d53a2f)), Count(16, 130));
    OneChunk(City128.Turn(Blocks(SeedState(Count(16, 130), Pair(0x0706050403020100, 0xd2b3d568a2d53a2f)), Count(16, 130), 2)), Count(16, 130));
  }
}
