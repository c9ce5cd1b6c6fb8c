/** Values of CityHash32 for names of every length class, worked out step by step from the statements
    of rpc/detail/city.cc:98-238. Each value depends on every constant, rotation and order of
    operations on its way. */
module KnownHashes {
  import opened Words
  import opened Bits
  import opened Memory
  import opened City32

  // ----- Hexadecimal words, for exclusive or -----

  datatype Nibble = Nibble(b3: bool, b2: bool, b1: bool, b0: bool)

  const X0 := Nibble(false, false, false, false)
  const X1 := Nibble(false, false, false, true)
  const X2 := Nibble(false, false, true, false)
  const X3 := Nibble(false, false, true, true)
  const X4 := Nibble(false, true, false, false)
  const X5 := Nibble(false, true, false, true)
  const X6 := Nibble(false, true, true, false)
  const X7 := Nibble(false, true, true, true)
  const X8 := Nibble(true, false, false, false)
  const X9 := Nibble(true, false, false, true)
  const XA := Nibble(true, false, true, false)
  const XB := Nibble(true, false, true, true)
  const XC := Nibble(true, true, false, false)
  const XD := Nibble(true, true, false, true)
  const XE := Nibble(true, true, true, false)
  const XF := Nibble(true, true, true, true)

  function Digit(n: Nibble): nat {
    (if n.b3 then 8 else 0) + (if n.b2 then 4 else 0) + (if n.b1 then 2 else 0) + (if n.b0 then 1 else 0)
  }

  function Diff(a: Nibble, b: Nibble): Nibble {
    Nibble(a.b3 != b.b3, a.b2 != b.b2, a.b1 != b.b1, a.b0 != b.b0)
  }

  datatype Word = Hex(d7: Nibble, d6: Nibble, d5: Nibble, d4: Nibble, d3: Nibble, d2: Nibble, d1: Nibble, d0: Nibble)

  function Value(w: Word): nat {
    0x1000_0000 * Digit(w.d7) + 0x100_0000 * Digit(w.d6) + 0x10_0000 * Digit(w.d5) + 0x1_0000 * Digit(w.d4)
    + 0x1000 * Digit(w.d3) + 0x100 * Digit(w.d2) + 0x10 * Digit(w.d1) + Digit(w.d0)
  }

  function XorWord(a: Word, b: Word): Word {
    Hex(Diff(a.d7, b.d7), Diff(a.d6, b.d6), Diff(a.d5, b.d5), Diff(a.d4, b.d4),
        Diff(a.d3, b.d3), Diff(a.d2, b.d2), Diff(a.d1, b.d1), Diff(a.d0, b.d0))
  }

  lemma {:induction false} OneBit(x: nat, y: nat, a: bool, b: bool)
    ensures Xor(2 * x + if a then 1 else 0, 2 * y + if b then 1 else 0) == 2 * Xor(x, y) + if a != b then 1 else 0
  {
    hide Xor;
    var p, q := 2 * x + (if a then 1 else 0), 2 * y + (if b then 1 else 0);
    XorParts(p, q);
    assert p / 2 == x && q / 2 == y;
    assert (p + q) % 2 == if a != b then 1 else 0 by { assert p + q == 2 * (x + y) + (if a then 1 else 0) + (if b then 1 else 0); }
  }

  lemma {:induction false} OneDigit(x: nat, y: nat, a: Nibble, b: Nibble)
    ensures Xor(16 * x + Digit(a), 16 * y + Digit(b)) == 16 * Xor(x, y) + Digit(Diff(a, b))
  {
    hide Xor;
    TwoBits(x, y, a.b3, a.b2, b.b3, b.b2);
    var c, d := 4 * x + (if a.b3 then 2 else 0) + (if a.b2 then 1 else 0), 4 * y + (if b.b3 then 2 else 0) + (if b.b2 then 1 else 0);
    TwoBits(c, d, a.b1, a.b0, b.b1, b.b0);
  }

  lemma {:induction false} TwoBits(x: nat, y: nat, a: bool, a': bool, b: bool, b': bool)
    ensures Xor(4 * x + (if a then 2 else 0) + (if a' then 1 else 0), 4 * y + (if b then 2 else 0) + (if b' then 1 else 0))
            == 4 * Xor(x, y) + (if a != b then 2 else 0) + (if a' != b' then 1 else 0)
  {
    hide Xor;
    OneBit(x, y, a, b);
    OneBit(2 * x + (if a then 1 else 0), 2 * y + (if b then 1 else 0), a', b');
  }

  lemma {:induction false} XorZeros()
    ensures Xor(0, 0) == 0
  {
  }

  lemma {:induction false} XorWords(a: Word, b: Word)
    ensures Xor(Value(a), Value(b)) == Value(XorWord(a, b))
  {
    hide Xor, Digit, Diff;
    XorZeros();
    OneDigit(0, 0, a.d7, b.d7);
    var x, y := Digit(a.d7), Digit(b.d7);
    OneDigit(x, y, a.d6, b.d6);
    x, y := 16 * x + Digit(a.d6), 16 * y + Digit(b.d6);
    OneDigit(x, y, a.d5, b.d5);
    x, y := 16 * x + Digit(a.d5), 16 * y + Digit(b.d5);
    OneDigit(x, y, a.d4, b.d4);
    x, y := 16 * x + Digit(a.d4), 16 * y + Digit(b.d4);
    OneDigit(x, y, a.d3, b.d3);
    x, y := 16 * x + Digit(a.d3), 16 * y + Digit(b.d3);
    OneDigit(x, y, a.d2, b.d2);
    x, y := 16 * x + Digit(a.d2), 16 * y + Digit(b.d2);
    OneDigit(x, y, a.d1, b.d1);
    x, y := 16 * x + Digit(a.d1), 16 * y + Digit(b.d1);
    OneDigit(x, y, a.d0, b.d0);
  }

  lemma {:induction false} XorIs(a: Word, b: Word, x: U32, y: U32, z: U32)
    requires Value(a) == x && Value(b) == y && Value(XorWord(a, b)) == z
    ensures Xor32(x, y) == z
  {
    hide Value, XorWord;
    XorWords(a, b);
  }

  // ----- The steps as arithmetic -----

  /** A rotation whose shifts are the factors p = 2^k and q = 2^(32 - k). */
  function Turn(x: nat, p: nat, q: nat): nat
    requires p > 0
  {
    x / p + x * q % 0x1_0000_0000
  }

  lemma {:induction false} TurnIs(x: U32, k: nat, p: nat, q: nat)
    requires 0 < k < 32 && p == Pow2(k) && q == Pow2(32 - k)
    ensures Rotate32(x, k) == Turn(x, p, q)
  {
    hide Pow2;
    RotateMeansShifts(x, k);
  }

  lemma {:induction false} Powers()
    ensures Pow2(11) == 0x800 && Pow2(21) == 0x20_0000 && Pow2(15) == 0x8000 && Pow2(17) == 0x2_0000
    ensures Pow2(18) == 0x4_0000 && Pow2(14) == 0x4000 && Pow2(19) == 0x8_0000 && Pow2(13) == 0x2000 && Pow2(16) == 0x1_0000
  {
    hide Pow2;
    Pow2Of4();
    SmallPowers();
    Pow2Sum(4, 4); Pow2Sum(8, 8); Pow2Sum(8, 4);
    Pow2Sum(8, 3); Pow2Sum(16, 3); Pow2Sum(16, 1); Pow2Sum(16, 2); Pow2Sum(12, 3); Pow2Sum(12, 2); Pow2Sum(12, 1);
    Pow2Sum(19, 2);
  }

  lemma {:induction false} SmallPowers()
    ensures Pow2(1) == 2 && Pow2(2) == 4 && Pow2(3) == 8
  {
    assert Pow2(0) == 1;
  }

  /** Scramble(a) is m, through the products and the two shifts. */
  lemma {:induction false} ScrambleIs(a: U32, p: U32, p1: nat, p2: nat, m: U32)
    requires a * 0xcc9e2d51 % 0x1_0000_0000 == p && p / 0x2_0000 == p1 && p * 0x8000 % 0x1_0000_0000 == p2
    requires (p1 + p2) * 0x1b873593 % 0x1_0000_0000 == m
    ensures Scramble(a) == m
  {
    hide Rotate32, Pow2;
    Powers();
    TurnIs(p, 17, 0x2_0000, 0x8000);
  }

  /** Stir(x, 19) is r, and Stir(x, 18). */
  lemma {:induction false} Stir19Is(x: U32, y1: nat, y2: nat, r: U32)
    requires x / 0x8_0000 == y1 && x * 0x2000 % 0x1_0000_0000 == y2 && ((y1 + y2) * 5 + 0xe6546b64) % 0x1_0000_0000 == r
    ensures Stir(x, 19) == r
  {
    hide Rotate32, Pow2;
    Powers();
    TurnIs(x, 19, 0x8_0000, 0x2000);
    TimesFivePlus(y1 + y2, 0xe6546b64);
  }

  lemma {:induction false} Stir18Is(x: U32, y1: nat, y2: nat, r: U32)
    requires x / 0x4_0000 == y1 && x * 0x4000 % 0x1_0000_0000 == y2 && ((y1 + y2) * 5 + 0xe6546b64) % 0x1_0000_0000 == r
    ensures Stir(x, 18) == r
  {
    hide Rotate32, Pow2;
    Powers();
    TurnIs(x, 18, 0x4_0000, 0x4000);
    TimesFivePlus(y1 + y2, 0xe6546b64);
  }

  lemma {:induction false} TimesFivePlus(x: nat, c: nat)
    ensures (x * 5 % 0x1_0000_0000 + c) % 0x1_0000_0000 == (x * 5 + c) % 0x1_0000_0000
  {
  }

  /** x, rotated by 17, 19 or 11 and multiplied by c1, is r. */
  lemma {:induction false} Turn17Is(x: U32, y1: nat, y2: nat, r: U32)
    requires x / 0x2_0000 == y1 && x * 0x8000 % 0x1_0000_0000 == y2 && (y1 + y2) * 0xcc9e2d51 % 0x1_0000_0000 == r
    ensures Mul32(Rotate32(x, 17), C1) == r
  {
    hide Rotate32, Pow2;
    Powers();
    TurnIs(x, 17, 0x2_0000, 0x8000);
  }

  lemma {:induction false} Turn19Is(x: U32, y1: nat, y2: nat, r: U32)
    requires x / 0x8_0000 == y1 && x * 0x2000 % 0x1_0000_0000 == y2 && (y1 + y2) * 0xcc9e2d51 % 0x1_0000_0000 == r
    ensures Mul32(Rotate32(x, 19), C1) == r
  {
    hide Rotate32, Pow2;
    Powers();
    TurnIs(x, 19, 0x8_0000, 0x2000);
  }

  lemma {:induction false} Turn11Is(x: U32, y1: nat, y2: nat, r: U32)
    requires x / 0x800 == y1 && x * 0x20_0000 % 0x1_0000_0000 == y2 && (y1 + y2) * 0xcc9e2d51 % 0x1_0000_0000 == r
    ensures Mul32(Rotate32(x, 11), C1) == r
  {
    hide Rotate32, Pow2;
    Powers();
    TurnIs(x, 11, 0x800, 0x20_0000);
  }

  /** Mur(a, h) is r: hw and mw are h and the scrambled a in hexadecimal, x is their exclusive or. */
  lemma {:induction false} MurIs(a: U32, h: U32, p: U32, p1: nat, p2: nat, m: U32, hw: Word, mw: Word, x: U32, y1: nat, y2: nat, r: U32)
    requires a * 0xcc9e2d51 % 0x1_0000_0000 == p && p / 0x2_0000 == p1 && p * 0x8000 % 0x1_0000_0000 == p2
    requires (p1 + p2) * 0x1b873593 % 0x1_0000_0000 == m
    requires Value(hw) == h && Value(mw) == m && Value(XorWord(hw, mw)) == x
    requires x / 0x8_0000 == y1 && x * 0x2000 % 0x1_0000_0000 == y2 && ((y1 + y2) * 5 + 0xe6546b64) % 0x1_0000_0000 == r
    ensures Mur(a, h) == r
  {
    hide Scramble, Stir, Value, XorWord;
    ScrambleIs(a, p, p1, p2, m);
    XorIs(hw, mw, h, m, x);
    Stir19Is(x, y1, y2, r);
  }

  /** x ^ (x >> 16) is r, and x ^ (x >> 13). */
  lemma {:induction false} Mix16Is(x: U32, y: nat, xw: Word, yw: Word, r: U32)
    requires x / 0x1_0000 == y && Value(xw) == x && Value(yw) == y && Value(XorWord(xw, yw)) == r
    ensures Mix32(x, 16) == r
  {
    hide Value, XorWord, Xor, Pow2, Shr;
    XorWords(xw, yw);
    Powers();
    ShrDivides(x, 16);
  }

  lemma {:induction false} Mix13Is(x: U32, y: nat, xw: Word, yw: Word, r: U32)
    requires x / 0x2000 == y && Value(xw) == x && Value(yw) == y && Value(XorWord(xw, yw)) == r
    ensures Mix32(x, 13) == r
  {
    hide Value, XorWord, Xor, Pow2, Shr;
    XorWords(xw, yw);
    Powers();
    ShrDivides(x, 13);
  }

  /** The bytes of a word, swapped. */
  lemma {:induction false} BswapIs(b0: Byte, b1: Byte, b2: Byte, b3: Byte, x: U32, y: U32)
    requires LittleEndian32(b0, b1, b2, b3) == x && LittleEndian32(b3, b2, b1, b0) == y
    ensures Bswap32(x) == y
  {
    hide LittleEndian32;
    BytesOfWord(b0, b1, b2, b3);
  }

  /** One round, through the words after each of its statements. */
  lemma {:induction false} RoundIs(x: State, w: seq<U32>, a0: U32, a2: U32, a3: U32, h1: U32, h2: U32, f1: U32, f2: U32, g1: U32, g2: U32,
                                   c: U32, h3: U32, h4: U32, g3: U32, g4: U32, g5: U32, d: U32, h5: U32, h6: U32, f3: U32)
    requires |w| == 5 && Scramble(w[0]) == a0 && Scramble(w[2]) == a2 && Scramble(w[3]) == a3
    requires Xor32(x.h, a0) == h1 && Stir(h1, 18) == h2
    requires Add32(x.f, w[1]) == f1 && Mul32(Rotate32(f1, 19), C1) == f2
    requires Add32(x.g, a2) == g1 && Stir(g1, 18) == g2
    requires Add32(a3, w[1]) == c && Xor32(h2, c) == h3 && Stir(h3, 19) == h4
    requires Xor32(g2, w[4]) == g3 && Bswap32(g3) == g4 && Mul32(g4, 5) == g5
    requires Mul32(w[4], 5) == d && Add32(h4, d) == h5 && Bswap32(h5) == h6 && Add32(f2, a0) == f3
    ensures Round(x, w) == State(g5, h6, f3)
  {
    hide Scramble, Stir, Xor32, Add32, Mul32, Rotate32, Bswap32;
  }

  /** The end, through the words after each of its statements. */
  lemma {:induction false} FinalIs(x: State, g1: U32, g2: U32, f1: U32, f2: U32, h1: U32, h2: U32, h3: U32, h4: U32, h5: U32, r: U32)
    requires Mul32(Rotate32(x.g, 11), C1) == g1 && Mul32(Rotate32(g1, 17), C1) == g2
    requires Mul32(Rotate32(x.f, 11), C1) == f1 && Mul32(Rotate32(f1, 17), C1) == f2
    requires Add32(x.h, g2) == h1 && Stir(h1, 19) == h2 && Mul32(Rotate32(h2, 17), C1) == h3
    requires Add32(h3, f2) == h4 && Stir(h4, 19) == h5 && Mul32(Rotate32(h5, 17), C1) == r
    ensures FinalMix(x) == r
  {
    hide Stir, Add32, Mul32, Rotate32;
  }

  /** fmix(h) is r, through the words after each exclusive or and each multiplication. */
  lemma {:induction false} FmixIs(h: U32, a: U32, b: U32, c: U32, d: U32, r: U32)
    requires Mix32(h, 16) == a && a * 0x85ebca6b % 0x1_0000_0000 == b && Mix32(b, 13) == c
    requires c * 0xc2b2ae35 % 0x1_0000_0000 == d && Mix32(d, 16) == r
    ensures Fmix(h) == r
  {
    hide Mix32;
  }

  // ----- Single steps: Mur and fmix on the words that the names below lead to -----

  lemma {:induction false} Mur01()
    ensures Mur(0x00000000, 0x00000009) == 0xe65a0b64
  {
    hide Mur;
    MurIs(0x00000000, 0x00000009, 0x00000000, 0x00000000, 0x00000000, 0x00000000,
          Hex(X0, X0, X0, X0, X0, X0, X0, X9),
          Hex(X0, X0, X0, X0, X0, X0, X0, X0), 0x00000009, 0x00000000, 0x00012000, 0xe65a0b64);
  }

  lemma {:induction false} Mur02()
    ensures Mur(0x00000000, 0xe65a0b64) == 0x2d737b5b
  {
    hide Mur;
    MurIs(0x00000000, 0xe65a0b64, 0x00000000, 0x00000000, 0x00000000, 0x00000000,
          Hex(XE, X6, X5, XA, X0, XB, X6, X4),
          Hex(X0, X0, X0, X0, X0, X0, X0, X0), 0xe65a0b64, 0x00001ccb, 0x416c8000, 0x2d737b5b);
  }

  lemma {:induction false} Fmix01()
    ensures Fmix(0x2d737b5b) == 0xdc56d17a
  {
    hide Fmix, Mix32;
    Mix16Is(0x2d737b5b, 0x00002d73, Hex(X2, XD, X7, X3, X7, XB, X5, XB),
            Hex(X0, X0, X0, X0, X2, XD, X7, X3), 0x2d735628);
    Mix13Is(0xdfe892b8, 0x0006ff44, Hex(XD, XF, XE, X8, X9, X2, XB, X8),
            Hex(X0, X0, X0, X6, XF, XF, X4, X4), 0xdfee6dfc);
    Mix16Is(0xdc560d2c, 0x0000dc56, Hex(XD, XC, X5, X6, X0, XD, X2, XC),
            Hex(X0, X0, X0, X0, XD, XC, X5, X6), 0xdc56d17a);
    FmixIs(0x2d737b5b, 0x2d735628, 0xdfe892b8, 0xdfee6dfc, 0xdc560d2c, 0xdc56d17a);
  }

  lemma {:induction false} Mur03()
    ensures Mur(0x00000003, 0xbb73b494) == 0xb386b8ce
  {
    hide Mur;
    MurIs(0x00000003, 0xbb73b494, 0x65da87f3, 0x000032ed, 0x43f98000, 0x1467cf17,
          Hex(XB, XB, X7, X3, XB, X4, X9, X4),
          Hex(X1, X4, X6, X7, XC, XF, X1, X7), 0xaf147b83, 0x000015e2, 0x8f706000, 0xb386b8ce);
  }

  lemma {:induction false} Mur04()
    ensures Mur(0x77ed9872, 0xb386b8ce) == 0x9dd70984
  {
    hide Mur;
    MurIs(0x77ed9872, 0xb386b8ce, 0xa4554612, 0x0000522a, 0xa3090000, 0x4e82e01e,
          Hex(XB, X3, X8, X6, XB, X8, XC, XE),
          Hex(X4, XE, X8, X2, XE, X0, X1, XE), 0xfd0458d0, 0x00001fa0, 0x8b1a0000, 0x9dd70984);
  }

  lemma {:induction false} Fmix02()
    ensures Fmix(0x9dd70984) == 0xae1fa17d
  {
    hide Fmix, Mix32;
    Mix16Is(0x9dd70984, 0x00009dd7, Hex(X9, XD, XD, X7, X0, X9, X8, X4),
            Hex(X0, X0, X0, X0, X9, XD, XD, X7), 0x9dd79453);
    Mix13Is(0x5b557cb1, 0x0002daab, Hex(X5, XB, X5, X5, X7, XC, XB, X1),
            Hex(X0, X0, X0, X2, XD, XA, XA, XB), 0x5b57a61a);
    Mix16Is(0xae1f0f62, 0x0000ae1f, Hex(XA, XE, X1, XF, X0, XF, X6, X2),
            Hex(X0, X0, X0, X0, XA, XE, X1, XF), 0xae1fa17d);
    FmixIs(0x9dd70984, 0x9dd79453, 0x5b557cb1, 0x5b57a61a, 0xae1f0f62, 0xae1fa17d);
  }

  lemma {:induction false} Mur05()
    ensures Mur(0x0005d9ad, 0x0000003c) == 0x802fecb6
  {
    hide Mur;
    MurIs(0x0005d9ad, 0x0000003c, 0x3de348bd, 0x00001ef1, 0xa45e8000, 0x35542963,
          Hex(X0, X0, X0, X0, X0, X0, X3, XC),
          Hex(X3, X5, X5, X4, X2, X9, X6, X3), 0x3554295f, 0x000006aa, 0x852be000, 0x802fecb6);
  }

  lemma {:induction false} Mur06()
    ensures Mur(0x03e0c981, 0x802fecb6) == 0x6aa30bfe
  {
    hide Mur;
    MurIs(0x03e0c981, 0x802fecb6, 0xe7296ed1, 0x00007394, 0xb7688000, 0x1abd81fc,
          Hex(X8, X0, X2, XF, XE, XC, XB, X6),
          Hex(X1, XA, XB, XD, X8, X1, XF, XC), 0x9a926d4a, 0x00001352, 0x4da94000, 0x6aa30bfe);
  }

  lemma {:induction false} Mur07()
    ensures Mur(0x0005d9ac, 0x00000037) == 0x2fd31361
  {
    hide Mur;
    MurIs(0x0005d9ac, 0x00000037, 0x71451b6c, 0x000038a2, 0x8db60000, 0x0cca0f06,
          Hex(X0, X0, X0, X0, X0, X0, X3, X7),
          Hex(X0, XC, XC, XA, X0, XF, X0, X6), 0x0cca0f31, 0x00000199, 0x41e62000, 0x2fd31361);
  }

  lemma {:induction false} Mur08()
    ensures Mur(0x03e0c97c, 0x2fd31361) == 0x6aa30bfe
  {
    hide Mur;
    MurIs(0x03e0c97c, 0x2fd31361, 0xe8128c3c, 0x00007409, 0x461e0000, 0xb5417e2b,
          Hex(X2, XF, XD, X3, X1, X3, X6, X1),
          Hex(XB, X5, X4, X1, X7, XE, X2, XB), 0x9a926d4a, 0x00001352, 0x4da94000, 0x6aa30bfe);
  }

  lemma {:induction false} Mur09()
    ensures Mur(0x6c6c6573, 0x00000037) == 0xc5acd932
  {
    hide Mur;
    MurIs(0x6c6c6573, 0x00000037, 0x9d1b5063, 0x00004e8d, 0xa8318000, 0xafb7cbf7,
          Hex(X0, X0, X0, X0, X0, X0, X3, X7),
          Hex(XA, XF, XB, X7, XC, XB, XF, X7), 0xafb7cbc0, 0x000015f6, 0xf9780000, 0xc5acd932);
  }

  lemma {:induction false} Mur10()
    ensures Mur(0x646c72a6, 0xc5acd932) == 0xf386b9b3
  {
    hide Mur;
    MurIs(0x646c72a6, 0xc5acd932, 0xe0eb7486, 0x00007075, 0xba430000, 0x8fb4cc2f,
          Hex(XC, X5, XA, XC, XD, X9, X3, X2),
          Hex(X8, XF, XB, X4, XC, XC, X2, XF), 0x4a18151d, 0x00000943, 0x02a3a000, 0xf386b9b3);
  }

  lemma {:induction false} Mur11()
    ensures Mur(0x6f772078, 0xf386b9b3) == 0xa697b622
  {
    hide Mur;
    MurIs(0x6f772078, 0xf386b9b3, 0xdf765df8, 0x00006fbb, 0x2efc0000, 0xe2b2df61,
          Hex(XF, X3, X8, X6, XB, X9, XB, X3),
          Hex(XE, X2, XB, X2, XD, XF, X6, X1), 0x113466d2, 0x00000226, 0x8cda4000, 0xa697b622);
  }

  lemma {:induction false} Fmix03()
    ensures Fmix(0xa697b622) == 0x19a7581a
  {
    hide Fmix, Mix32;
    Mix16Is(0xa697b622, 0x0000a697, Hex(XA, X6, X9, X7, XB, X6, X2, X2),
            Hex(X0, X0, X0, X0, XA, X6, X9, X7), 0xa69710b5);
    Mix13Is(0x3379cda7, 0x00019bce, Hex(X3, X3, X7, X9, XC, XD, XA, X7),
            Hex(X0, X0, X0, X1, X9, XB, XC, XE), 0x33785669);
    Mix16Is(0x19a741bd, 0x000019a7, Hex(X1, X9, XA, X7, X4, X1, XB, XD),
            Hex(X0, X0, X0, X0, X1, X9, XA, X7), 0x19a7581a);
    FmixIs(0xa697b622, 0xa69710b5, 0x3379cda7, 0x33785669, 0x19a741bd, 0x19a7581a);
  }

  lemma {:induction false} Mur12()
    ensures Mur(0x6c6c656d, 0x00000019) == 0xf2f68072
  {
    hide Mur;
    MurIs(0x6c6c656d, 0x00000019, 0xd166407d, 0x000068b3, 0x203e8000, 0x21b1adc9,
          Hex(X0, X0, X0, X0, X0, X0, X1, X9),
          Hex(X2, X1, XB, X1, XA, XD, XC, X9), 0x21b1add0, 0x00000436, 0x35ba0000, 0xf2f68072);
  }

  lemma {:induction false} Mur13()
    ensures Mur(0x6f6c6c7e, 0xf2f68072) == 0x2a0b5464
  {
    hide Mur;
    MurIs(0x6f6c6c7e, 0xf2f68072, 0xae2479de, 0x00005712, 0x3cef0000, 0x5af3b956,
          Hex(XF, X2, XF, X6, X8, X0, X7, X2),
          Hex(X5, XA, XF, X3, XB, X9, X5, X6), 0xa8053924, 0x00001500, 0xa7248000, 0x2a0b5464);
  }

  lemma {:induction false} Mur14()
    ensures Mur(0x6c6c6571, 0x2a0b5464) == 0xb06c9d86
  {
    hide Mur;
    MurIs(0x6c6c6571, 0x2a0b5464, 0x03def5c1, 0x000001ef, 0x7ae08000, 0xc3da173d,
          Hex(X2, XA, X0, XB, X5, X4, X6, X4),
          Hex(XC, X3, XD, XA, X1, X7, X3, XD), 0xe9d14359, 0x00001d3a, 0x286b2000, 0xb06c9d86);
  }

  lemma {:induction false} Fmix04()
    ensures Fmix(0xb06c9d86) == 0x79969366
  {
    hide Fmix, Mix32;
    Mix16Is(0xb06c9d86, 0x0000b06c, Hex(XB, X0, X6, XC, X9, XD, X8, X6),
            Hex(X0, X0, X0, X0, XB, X0, X6, XC), 0xb06c2dea);
    Mix13Is(0xd13fd4ce, 0x000689fe, Hex(XD, X1, X3, XF, XD, X4, XC, XE),
            Hex(X0, X0, X0, X6, X8, X9, XF, XE), 0xd1395d30);
    Mix16Is(0x7996eaf0, 0x00007996, Hex(X7, X9, X9, X6, XE, XA, XF, X0),
            Hex(X0, X0, X0, X0, X7, X9, X9, X6), 0x79969366);
    FmixIs(0xb06c9d86, 0xb06c2dea, 0xd13fd4ce, 0xd1395d30, 0x7996eaf0, 0x79969366);
  }

  lemma {:induction false} Mur15()
    ensures Mur(0x6e6f5067, 0x0000000f) == 0x78251a57
  {
    hide Mur;
    MurIs(0x6e6f5067, 0x0000000f, 0x35ec8b97, 0x00001af6, 0x45cb8000, 0xe4b8e942,
          Hex(X0, X0, X0, X0, X0, X0, X0, XF),
          Hex(XE, X4, XB, X8, XE, X9, X4, X2), 0xe4b8e94d, 0x00001c97, 0x1d29a000, 0x78251a57);
  }

  lemma {:induction false} Mur16()
    ensures Mur(0x676e6f50, 0x78251a57) == 0x72455d6f
  {
    hide Mur;
    MurIs(0x676e6f50, 0x78251a57, 0x96e24850, 0x00004b71, 0x24280000, 0xce58b6e3,
          Hex(X7, X8, X2, X5, X1, XA, X5, X7),
          Hex(XC, XE, X5, X8, XB, X6, XE, X3), 0xb67dacb4, 0x000016cf, 0xb5968000, 0x72455d6f);
  }

  lemma {:induction false} Mur17()
    ensures Mur(0x73655467, 0x72455d6f) == 0xddad46da
  {
    hide Mur;
    MurIs(0x73655467, 0x72455d6f, 0x7e77cf97, 0x00003f3b, 0xe7cb8000, 0x59b305e1,
          Hex(X7, X2, X4, X5, X5, XD, X6, XF),
          Hex(X5, X9, XB, X3, X0, X5, XE, X1), 0x2bf6588e, 0x0000057e, 0xcb11c000, 0xddad46da);
  }

  lemma {:induction false} Mur18()
    ensures Mur(0x73655467, 0xddad46da) == 0xd0599df3
  {
    hide Mur;
    MurIs(0x73655467, 0xddad46da, 0x7e77cf97, 0x00003f3b, 0xe7cb8000, 0x59b305e1,
          Hex(XD, XD, XA, XD, X4, X6, XD, XA),
          Hex(X5, X9, XB, X3, X0, X5, XE, X1), 0x841e433b, 0x00001083, 0xc8676000, 0xd0599df3);
  }

  lemma {:induction false} Mur19()
    ensures Mur(0x676e6950, 0xd0599df3) == 0xdfd7abd8
  {
    hide Mur;
    MurIs(0x676e6950, 0xd0599df3, 0xe1d26250, 0x000070e9, 0x31280000, 0xb77812cb,
          Hex(XD, X0, X5, X9, X9, XD, XF, X3),
          Hex(XB, X7, X7, X8, X1, X2, XC, XB), 0x67218f38, 0x00000ce4, 0x31e70000, 0xdfd7abd8);
  }

  lemma {:induction false} Mur20()
    ensures Mur(0x676e6974, 0xdfd7abd8) == 0x905c83dd
  {
    hide Mur;
    MurIs(0x676e6974, 0xdfd7abd8, 0xa810c1b4, 0x00005408, 0x60da0000, 0xf8fbe898,
          Hex(XD, XF, XD, X7, XA, XB, XD, X8),
          Hex(XF, X8, XF, XB, XE, X8, X9, X8), 0x272c4340, 0x000004e5, 0x88680000, 0x905c83dd);
  }

  lemma {:induction false} Fmix05()
    ensures Fmix(0x905c83dd) == 0xe5669d8a
  {
    hide Fmix, Mix32;
    Mix16Is(0x905c83dd, 0x0000905c, Hex(X9, X0, X5, XC, X8, X3, XD, XD),
            Hex(X0, X0, X0, X0, X9, X0, X5, XC), 0x905c1381);
    Mix13Is(0xea4af0eb, 0x00075257, Hex(XE, XA, X4, XA, XF, X0, XE, XB),
            Hex(X0, X0, X0, X7, X5, X2, X5, X7), 0xea4da2bc);
    Mix16Is(0xe56678ec, 0x0000e566, Hex(XE, X5, X6, X6, X7, X8, XE, XC),
            Hex(X0, X0, X0, X0, XE, X5, X6, X6), 0xe5669d8a);
    FmixIs(0x905c83dd, 0x905c1381, 0xea4af0eb, 0xea4da2bc, 0xe56678ec, 0xe5669d8a);
  }

  lemma {:induction false} Mur21()
    ensures Mur(0x6b72616d, 0x00000012) == 0x1626a695
  {
    hide Mur;
    MurIs(0x6b72616d, 0x00000012, 0x1796fc7d, 0x00000bcb, 0x7e3e8000, 0x91e84c91,
          Hex(X0, X0, X0, X0, X0, X0, X1, X2),
          Hex(X9, X1, XE, X8, X4, XC, X9, X1), 0x91e84c83, 0x0000123d, 0x09906000, 0x1626a695);
  }

  lemma {:induction false} Mur22()
    ensures Mur(0x72616d68, 0x1626a695) == 0x5b7bdf04
  {
    hide Mur;
    MurIs(0x72616d68, 0x1626a695, 0xb73ee5e8, 0x00005b9f, 0x72f40000, 0xaf21874d,
          Hex(X1, X6, X2, X6, XA, X6, X9, X5),
          Hex(XA, XF, X2, X1, X8, X7, X4, XD), 0xb90721d8, 0x00001720, 0xe43b0000, 0x5b7bdf04);
  }

  lemma {:induction false} Mur23()
    ensures Mur(0x7265746e, 0x5b7bdf04) == 0xbb52f80d
  {
    hide Mur;
    MurIs(0x7265746e, 0x5b7bdf04, 0x8b752cce, 0x000045ba, 0x96670000, 0x21d28bce,
          Hex(X5, XB, X7, XB, XD, XF, X0, X4),
          Hex(X2, X1, XD, X2, X8, XB, XC, XE), 0x7aa954ca, 0x00000f55, 0x2a994000, 0xbb52f80d);
  }

  lemma {:induction false} Mur24()
    ensures Mur(0x65746e49, 0xbb52f80d) == 0x06614910
  {
    hide Mur;
    MurIs(0x65746e49, 0xbb52f80d, 0xce47ba19, 0x00006723, 0xdd0c8000, 0x2eb7f819,
          Hex(XB, XB, X5, X2, XF, X8, X0, XD),
          Hex(X2, XE, XB, X7, XF, X8, X1, X9), 0x95e50014, 0x000012bc, 0xa0028000, 0x06614910);
  }

  lemma {:induction false} Mur25()
    ensures Mur(0x636e6542, 0x06614910) == 0x244b812a
  {
    hide Mur;
    MurIs(0x636e6542, 0x06614910, 0xf476a3e2, 0x00007a3b, 0x51f10000, 0xba1466e1,
          Hex(X0, X6, X6, X1, X4, X9, X1, X0),
          Hex(XB, XA, X1, X4, X6, X6, XE, X1), 0xbc752ff1, 0x0000178e, 0xa5fe2000, 0x244b812a);
  }

  lemma {:induction false} Mur26()
    ensures Mur(0x65636166, 0x244b812a) == 0x46846580
  {
    hide Mur;
    MurIs(0x65636166, 0x244b812a, 0xf184bf46, 0x000078c2, 0x5fa30000, 0xe72c8166,
          Hex(X2, X4, X4, XB, X8, X1, X2, XA),
          Hex(XE, X7, X2, XC, X8, X1, X6, X6), 0xc367004c, 0x0000186c, 0xe0098000, 0x46846580);
  }

  lemma {:induction false} Fmix06()
    ensures Fmix(0x46846580) == 0x0ed076ea
  {
    hide Fmix, Mix32;
    Mix16Is(0x46846580, 0x00004684, Hex(X4, X6, X8, X4, X6, X5, X8, X0),
            Hex(X0, X0, X0, X0, X4, X6, X8, X4), 0x46842304);
    Mix13Is(0xf587caac, 0x0007ac3e, Hex(XF, X5, X8, X7, XC, XA, XA, XC),
            Hex(X0, X0, X0, X7, XA, XC, X3, XE), 0xf5806692);
    Mix16Is(0x0ed0783a, 0x00000ed0, Hex(X0, XE, XD, X0, X7, X8, X3, XA),
            Hex(X0, X0, X0, X0, X0, XE, XD, X0), 0x0ed076ea);
    FmixIs(0x46846580, 0x46842304, 0xf587caac, 0xf5806692, 0x0ed0783a, 0x0ed076ea);
  }

  lemma {:induction false} Mur27()
    ensures Mur(0x7265746e, 0x2deb222d) == 0xf0825307
  {
    hide Mur;
    MurIs(0x7265746e, 0x2deb222d, 0x8b752cce, 0x000045ba, 0x96670000, 0x21d28bce,
          Hex(X2, XD, XE, XB, X2, X2, X2, XD),
          Hex(X2, X1, XD, X2, X8, XB, XC, XE), 0x0c39a9e3, 0x00000187, 0x353c6000, 0xf0825307);
  }

  lemma {:induction false} Mur28()
    ensures Mur(0x496b7261, 0xf0825307) == 0x2c24ce45
  {
    hide Mur;
    MurIs(0x496b7261, 0xf0825307, 0x01f83db1, 0x000000fc, 0x1ed88000, 0x21ea3cb4,
          Hex(XF, X0, X8, X2, X5, X3, X0, X7),
          Hex(X2, X1, XE, XA, X3, XC, XB, X4), 0xd1686fb3, 0x00001a2d, 0x0df66000, 0x2c24ce45);
  }

  lemma {:induction false} Mur29()
    ensures Mur(0x65636166, 0x0000001d) == 0xb741dbdd
  {
    hide Mur;
    MurIs(0x65636166, 0x0000001d, 0xf184bf46, 0x000078c2, 0x5fa30000, 0xe72c8166,
          Hex(X0, X0, X0, X0, X0, X0, X1, XD),
          Hex(XE, X7, X2, XC, X8, X1, X6, X6), 0xe72c817b, 0x00001ce5, 0x902f6000, 0xb741dbdd);
  }

  lemma {:induction false} Mur30()
    ensures Mur(0x6d68636e, 0xb741dbdd) == 0x6f87698c
  {
    hide Mur;
    MurIs(0x6d68636e, 0xb741dbdd, 0xfd65cbce, 0x00007eb2, 0xe5e70000, 0x87069a36,
          Hex(XB, X7, X4, X1, XD, XB, XD, XD),
          Hex(X8, X7, X0, X6, X9, XA, X3, X6), 0x304741eb, 0x00000608, 0xe83d6000, 0x6f87698c);
  }

  // ----- Answers -----

  lemma {:induction false} EmptyName()
    ensures CityHash32([]) == 0xdc56d17a
  {
    hide Mur, Fmix;
    Mur01();
    Mur02();
    Fmix01();
  }

  /** A byte of 128 or more is a negative signed char. */
  function ShortName(): seq<Byte> {
    [255, 97, 98]
  }

  lemma {:induction false} ShortStep1()
    ensures ShortStep(Short(0, 9), 255) == Short(0xffffffff, 0xfffffff6)
  {
    hide Xor32;
    XorIs(Hex(X0, X0, X0, X0, X0, X0, X0, X9), Hex(XF, XF, XF, XF, XF, XF, XF, XF),
          9, 0xffffffff, 0xfffffff6);
  }

  lemma {:induction false} ShortStep2()
    ensures ShortStep(Short(0xffffffff, 0xfffffff6), 97) == Short(0x3361d310, 0xcc9e2ce6)
  {
    hide Xor32;
    XorIs(Hex(XF, XF, XF, XF, XF, XF, XF, X6), Hex(X3, X3, X6, X1, XD, X3, X1, X0),
          0xfffffff6, 0x3361d310, 0xcc9e2ce6);
  }

  lemma {:induction false} ShortStep3()
    ensures ShortStep(Short(0x3361d310, 0xcc9e2ce6), 98) == Short(0x77ed9872, 0xbb73b494)
  {
    hide Xor32;
    XorIs(Hex(XC, XC, X9, XE, X2, XC, XE, X6), Hex(X7, X7, XE, XD, X9, X8, X7, X2),
          0xcc9e2ce6, 0x77ed9872, 0xbb73b494);
  }

  lemma {:induction false} ThreeBytes(s: seq<Byte>)
    requires |s| == 3
    ensures ShortLoop(s, 3) == ShortStep(ShortStep(ShortStep(Short(0, 9), s[0]), s[1]), s[2])
  {
    hide ShortStep;
    assert ShortLoop(s, 0) == Short(0, 9);
    assert ShortLoop(s, 1) == ShortStep(ShortLoop(s, 0), s[0]);
    assert ShortLoop(s, 2) == ShortStep(ShortLoop(s, 1), s[1]);
  }

  lemma {:induction false} ShortNameLoop()
    ensures ShortLoop(ShortName(), 3) == Short(0x77ed9872, 0xbb73b494)
  {
    hide ShortStep, ShortLoop;
    ThreeBytes(ShortName());
    ShortStep1();
    ShortStep2();
    ShortStep3();
  }

  lemma {:induction false} ShortNameHash()
    ensures CityHash32(ShortName()) == 0xae1fa17d
  {
    hide Mur, Fmix, ShortLoop;
    ShortNameLoop();
    Mur03();
    Mur04();
    Fmix02();
  }

  function Twelve(): seq<Byte> {
    [161, 217, 5, 0, 0, 0, 0, 69, 69, 201, 224, 3]
  }

  lemma {:induction false} TwelveChain()
    ensures FetchAll(Twelve(), Offsets5to12(12)) == [0x0005d9a1, 0x03e0c945, 0x45000000]
    ensures Mur(0x03e0c981, Mur(0x0005d9ad, 60)) == 0x6aa30bfe
  {
    hide Mur;
    Mur05();
    Mur06();
  }

  function Eleven(): seq<Byte> {
    [161, 217, 5, 0, 0, 0, 0, 69, 201, 224, 3]
  }

  lemma {:induction false} ElevenChain()
    ensures FetchAll(Eleven(), Offsets5to12(11)) == [0x0005d9a1, 0x03e0c945, 0x45000000]
    ensures Mur(0x03e0c97c, Mur(0x0005d9ac, 55)) == 0x6aa30bfe
  {
    hide Mur;
    Mur07();
    Mur08();
  }

  /** Between 5 and 12 bytes the length alone does not always show: these two names have the same
      fetched words and different lengths, and collide. */
  lemma {:induction false} LengthsMayCollide()
    ensures |Twelve()| == 12 && |Eleven()| == 11
    ensures FetchAll(Twelve(), Offsets5to12(12)) == FetchAll(Eleven(), Offsets5to12(11))
    ensures CityHash32(Twelve()) == CityHash32(Eleven())
  {
    hide CityHash32, FetchAll, Mur;
    TwelveChain();
    ElevenChain();
    ShortNamesCollide(Twelve(), Eleven());
  }

  /** "hello world". */
  function Greeting(): seq<Byte> {
    [104, 101, 108, 108, 111, 32, 119, 111, 114, 108, 100]
  }

  lemma {:induction false} GreetingWords()
    ensures FetchAll(Greeting(), Offsets5to12(11)) == [0x6c6c6568, 0x646c726f, 0x6f77206f]
  {
  }

  lemma {:induction false} GreetingChain()
    ensures MurChain([0x6c6c6573, 0x646c72a6, 0x6f772078], 55) == 0xa697b622
  {
    hide Mur, MurChain;
    MurChainOf([0x6c6c6573, 0x646c72a6, 0x6f772078], 55);
    Mur09();
    Mur10();
    Mur11();
  }

  lemma {:induction false} GreetingHash()
    ensures CityHash32(Greeting()) == 0x19a7581a
  {
    hide Fmix, FetchAll, MurChain;
    GreetingWords();
    GreetingChain();
    Fmix03();
  }

  /** "hello". */
  function Hello(): seq<Byte> {
    [104, 101, 108, 108, 111]
  }

  lemma {:induction false} HelloWords()
    ensures FetchAll(Hello(), Offsets5to12(5)) == [0x6c6c6568, 0x6f6c6c65, 0x6c6c6568]
  {
  }

  lemma {:induction false} HelloChain()
    ensures MurChain([0x6c6c656d, 0x6f6c6c7e, 0x6c6c6571], 25) == 0xb06c9d86
  {
    hide Mur, MurChain;
    MurChainOf([0x6c6c656d, 0x6f6c6c7e, 0x6c6c6571], 25);
    Mur12();
    Mur13();
    Mur14();
  }

  lemma {:induction false} HelloHash()
    ensures CityHash32(Hello()) == 0x79969366
  {
    hide Fmix, FetchAll, MurChain;
    HelloWords();
    HelloChain();
    Fmix04();
  }

  /** "PingPongTesting". */
  function PingPong(): seq<Byte> {
    [80, 105, 110, 103, 80, 111, 110, 103, 84, 101, 115, 116, 105, 110, 103]
  }

  lemma {:induction false} PingPongWords()
    ensures FetchAll(PingPong(), Offsets13to24(15)) == [0x6e6f5067, 0x676e6f50, 0x73655467, 0x73655467, 0x676e6950, 0x676e6974]
  {
  }

  lemma {:induction false} PingPongChain()
    ensures MurChain([0x6e6f5067, 0x676e6f50, 0x73655467, 0x73655467, 0x676e6950, 0x676e6974], 15) == 0x905c83dd
  {
    hide Mur, MurChain;
    MurChainOf([0x6e6f5067, 0x676e6f50, 0x73655467, 0x73655467, 0x676e6950, 0x676e6974], 15);
    Mur15();
    Mur16();
    Mur17();
    Mur18();
    Mur19();
    Mur20();
  }

  lemma {:induction false} PingPongHash()
    ensures CityHash32(PingPong()) == 0xe5669d8a
  {
    hide Fmix, FetchAll, MurChain;
    PingPongWords();
    PingPongChain();
    Fmix05();
  }

  /** "BenchmarkInterface". */
  function Benchmark(): seq<Byte> {
    [66, 101, 110, 99, 104, 109, 97, 114, 107, 73, 110, 116, 101, 114, 102, 97, 99, 101]
  }

  lemma {:induction false} BenchmarkWords()
    ensures FetchAll(Benchmark(), Offsets13to24(18)) == [0x6b72616d, 0x72616d68, 0x7265746e, 0x65746e49, 0x636e6542, 0x65636166]
  {
  }

  lemma {:induction false} BenchmarkChain()
    ensures MurChain([0x6b72616d, 0x72616d68, 0x7265746e, 0x65746e49, 0x636e6542, 0x65636166], 18) == 0x46846580
  {
    hide Mur, MurChain;
    MurChainOf([0x6b72616d, 0x72616d68, 0x7265746e, 0x65746e49, 0x636e6542, 0x65636166], 18);
    Mur21();
    Mur22();
    Mur23();
    Mur24();
    Mur25();
    Mur26();
  }

  lemma {:induction false} BenchmarkHash()
    ensures CityHash32(Benchmark()) == 0x0ed076ea
  {
    hide Fmix, FetchAll, MurChain;
    BenchmarkWords();
    BenchmarkChain();
    Fmix06();
  }

  /** "gboost_rpc.BenchmarkInterface". */
  function LongName(): seq<Byte> {
    [103, 98, 111, 111, 115, 116, 95, 114, 112, 99, 46, 66, 101, 110, 99, 104, 109, 97, 114, 107, 73, 110, 116, 101, 114, 102, 97, 99, 101]
  }

  lemma {:induction false} LongNameTail()
    ensures TailWords(LongName()) == [0x65636166, 0x7265746e, 0x6d68636e, 0x496b7261, 0x65422e63]
  {
  }

  lemma {:induction false} LongNameLength()
    ensures |LongName()| == 29 && ToWord(|LongName()|) == 29 && Mul32(C1, 29) == 0x2deb222d
  {
  }

  lemma {:induction false} LongNameF()
    ensures Scramble(0x65422e63) == 0x0e294cdb && Add32(0x2deb222d, 0x0e294cdb) == 0x3c146f08 && Stir(0x3c146f08, 19) == 0xabb990ee
  {
    hide Scramble, Stir;
    ScrambleIs(0x65422e63, 0x31321453, 0x00001899, 0x0a298000, 0x0e294cdb);
    Stir19Is(0x3c146f08, 0x00000782, 0x8de10000, 0xabb990ee);
  }

  lemma {:induction false} LongNameStart()
    ensures Start(LongName()) == State(0xabb990ee, 0x2c24ce45, 0x6f87698c)
  {
    hide Mur, Stir, Scramble, TailWords, Start, Mul32, Add32, LongName;
    LongNameTail();
    LongNameLength();
    StartIs(LongName());
    LongNameF();
    Mur27();
    Mur28();
    Mur29();
    Mur30();
  }

  lemma {:induction false} LongNameBlock()
    ensures FetchAll(LongName(), BlockOffsets(0)) == [0x6f6f6267, 0x725f7473, 0x422e6370, 0x68636e65, 0x6b72616d]
  {
  }

  lemma {:induction false} LongNameScrambles()
    ensures Scramble(0x6f6f6267) == 0xa81e170a && Scramble(0x422e6370) == 0x53d1932c && Scramble(0x68636e65) == 0xbb64eb5b
  {
    hide Scramble;
    ScrambleIs(0x6f6f6267, 0xa61c3d97, 0x0000530e, 0x1ecb8000, 0xa81e170a);
    ScrambleIs(0x422e6370, 0xb7482670, 0x00005ba4, 0x13380000, 0x53d1932c);
    ScrambleIs(0x68636e65, 0x2033aef5, 0x00001019, 0xd77a8000, 0xbb64eb5b);
  }

  lemma {:induction false} LongNameH()
    ensures Xor32(0x6f87698c, 0xa81e170a) == 0xc7997e86 && Stir(0xc7997e86, 18) == 0xc47ce4e2 && Xor32(0xc47ce4e2, 0x2dc45fce) == 0xe9b8bb2c && Stir(0xe9b8bb2c, 19) == 0x5b507d77 && Bswap32(0x748c6498) == 0x98648c74
  {
    hide Xor32, Stir, Bswap32;
    XorIs(Hex(X6, XF, X8, X7, X6, X9, X8, XC), Hex(XA, X8, X1, XE, X1, X7, X0, XA),
          0x6f87698c, 0xa81e170a, 0xc7997e86);
    Stir18Is(0xc7997e86, 0x000031e6, 0x5fa18000, 0xc47ce4e2);
    XorIs(Hex(XC, X4, X7, XC, XE, X4, XE, X2), Hex(X2, XD, XC, X4, X5, XF, XC, XE),
          0xc47ce4e2, 0x2dc45fce, 0xe9b8bb2c);
    Stir19Is(0xe9b8bb2c, 0x00001d37, 0x17658000, 0x5b507d77);
    BswapIs(152, 100, 140, 116, 0x748c6498, 0x98648c74);
  }

  lemma {:induction false} LongNameFG()
    ensures Mul32(Rotate32(0x1e190561, 19), C1) == 0x0f1a97b3 && Stir(0x7ff66171, 18) == 0xe0224b55 && Xor32(0xe0224b55, 0x6b72616d) == 0x8b502a38 && Bswap32(0x8b502a38) == 0x382a508b
  {
    hide Xor32, Stir, Bswap32, Mul32, Rotate32;
    Turn19Is(0x1e190561, 0x000003c3, 0x20ac2000, 0x0f1a97b3);
    Stir18Is(0x7ff66171, 0x00001ffd, 0x985c4000, 0xe0224b55);
    XorIs(Hex(XE, X0, X2, X2, X4, XB, X5, X5), Hex(X6, XB, X7, X2, X6, X1, X6, XD),
          0xe0224b55, 0x6b72616d, 0x8b502a38);
    BswapIs(56, 42, 80, 139, 0x8b502a38, 0x382a508b);
  }

  lemma {:induction false} LongNameSums()
    ensures Add32(0xabb990ee, 0x725f7473) == 0x1e190561 && Add32(0x2c24ce45, 0x53d1932c) == 0x7ff66171 && Add32(0xbb64eb5b, 0x725f7473) == 0x2dc45fce && Mul32(0x382a508b, 5) == 0x18d392b7
    ensures Mul32(0x6b72616d, 5) == 0x193be721 && Add32(0x5b507d77, 0x193be721) == 0x748c6498 && Add32(0x0f1a97b3, 0xa81e170a) == 0xb738aebd
  {
  }

  lemma {:induction false} LongNameRound()
    ensures Round(State(0xabb990ee, 0x2c24ce45, 0x6f87698c), [0x6f6f6267, 0x725f7473, 0x422e6370, 0x68636e65, 0x6b72616d]) == State(0x18d392b7, 0x98648c74, 0xb738aebd)
  {
    hide Stir, Scramble, Xor32, Rotate32, Bswap32, Add32, Mul32, Round;
    LongNameScrambles();
    LongNameH();
    LongNameFG();
    LongNameSums();
    RoundIs(State(0xabb990ee, 0x2c24ce45, 0x6f87698c), [0x6f6f6267, 0x725f7473, 0x422e6370, 0x68636e65, 0x6b72616d], 0xa81e170a, 0x53d1932c, 0xbb64eb5b, 0xc7997e86, 0xc47ce4e2, 0x1e190561, 0x0f1a97b3, 0x7ff66171, 0xe0224b55, 0x2dc45fce, 0xe9b8bb2c, 0x5b507d77, 0x8b502a38, 0x382a508b, 0x18d392b7, 0x193be721, 0x748c6498, 0x98648c74, 0xb738aebd);
  }

  lemma {:induction false} LongNameTurns()
    ensures Mul32(Rotate32(0x98648c74, 11), C1) == 0x433a76e1 && Mul32(Rotate32(0x433a76e1, 17), C1) == 0x75f1bbad
    ensures Mul32(Rotate32(0x18d392b7, 11), C1) == 0x93dd6812 && Mul32(Rotate32(0x93dd6812, 17), C1) == 0xe1d33a4e
  {
    hide Mul32, Rotate32;
    Turn11Is(0x98648c74, 0x00130c91, 0x8e800000, 0x433a76e1);
    Turn17Is(0x433a76e1, 0x0000219d, 0x3b708000, 0x75f1bbad);
    Turn11Is(0x18d392b7, 0x00031a72, 0x56e00000, 0x93dd6812);
    Turn17Is(0x93dd6812, 0x000049ee, 0xb4090000, 0xe1d33a4e);
  }

  lemma {:induction false} LongNameSettles()
    ensures Add32(0xb738aebd, 0x75f1bbad) == 0x2d2a6a6a && Stir(0x2d2a6a6a, 19) == 0x68d6c79d && Mul32(Rotate32(0x68d6c79d, 17), C1) == 0x8827e4db
    ensures Add32(0x8827e4db, 0xe1d33a4e) == 0x69fb1f29 && Stir(0x69fb1f29, 19) == 0xd9ce4d9f && Mul32(Rotate32(0xd9ce4d9f, 17), C1) == 0x1f009017
  {
    hide Mul32, Rotate32, Stir;
    Stir19Is(0x2d2a6a6a, 0x000005a5, 0x4d4d4000, 0x68d6c79d);
    Turn17Is(0x68d6c79d, 0x0000346b, 0x63ce8000, 0x8827e4db);
    Stir19Is(0x69fb1f29, 0x00000d3f, 0x63e52000, 0xd9ce4d9f);
    Turn17Is(0xd9ce4d9f, 0x00006ce7, 0x26cf8000, 0x1f009017);
  }

  lemma {:induction false} LongNameFinal()
    ensures FinalMix(State(0x18d392b7, 0x98648c74, 0xb738aebd)) == 0x1f009017
  {
    hide Stir, Rotate32, FinalMix, Mul32, Add32;
    LongNameTurns();
    LongNameSettles();
    FinalIs(State(0x18d392b7, 0x98648c74, 0xb738aebd), 0x433a76e1, 0x75f1bbad, 0x93dd6812, 0xe1d33a4e, 0x2d2a6a6a, 0x68d6c79d, 0x8827e4db, 0x69fb1f29, 0xd9ce4d9f, 0x1f009017);
  }

  lemma {:induction false} LongNameHash()
    ensures CityHash32(LongName()) == 0x1f009017
  {
    hide Start, Round, FinalMix, FetchAll, Mur;
    LongNameStart();
    LongNameBlock();
    LongNameRound();
    LongNameFinal();
    OneRound(Start(LongName()), LongName());
  }

  lemma {:induction false} OneRound(x: State, s: seq<Byte>)
    requires |s| >= 20
    ensures Rounds(x, s, 1) == Round(x, FetchAll(s, BlockOffsets(0)))
  {
    hide Round, FetchAll;
    assert Rounds(x, s, 0) == x;
  }
}
