/** CityHash32 (rpc/detail/city.cc:98-238), which turns service names into service ids. */
module City32 {
  import opened Words
  import opened Bits
  import opened Memory

  // ----- 32-bit words -----

  lemma {:induction false} Pow2Of32()
    ensures Pow2(32) == 0x1_0000_0000
  {
    hide Pow2;
    Pow2Of4();
    Pow2Sum(4, 4);
    Pow2Sum(8, 8);
    Pow2Sum(16, 16);
  }

  function Xor32(x: U32, y: U32): U32 {
    Pow2Of32();
    XorBound(x, y, 32);
    Xor(x, y)
  }

  function Add32(x: U32, y: U32): U32 {
    (x + y) % 0x1_0000_0000
  }

  function Sub32(x: U32, y: U32): U32 {
    (x - y) % 0x1_0000_0000
  }

  function Mul32(x: U32, c: U32): U32 {
    (x * c) % 0x1_0000_0000
  }

  function Rotate32(x: U32, k: nat): U32 {
    RotateBounds(x, k, 0x8000_0000);
    Rotate(x, k, 0x8000_0000)
  }

  function Unrotate32(y: U32, k: nat): U32 {
    RotateBounds(y, k, 0x8000_0000);
    Unrotate(y, k, 0x8000_0000)
  }

  function Mix32(x: U32, k: nat): U32 {
    Pow2Of32();
    MixBound(x, k, 32);
    Mix(x, k)
  }

  function Unmix32(y: U32, k: nat): U32
    requires k > 0
  {
    Pow2Of32();
    UnmixBound(y, k, 32);
    Unmix(y, k)
  }

  /** bswap_32: the four bytes in reverse order. */
  function Bswap32(x: U32): U32 {
    var r1 := x / 0x100;
    var r2 := r1 / 0x100;
    LittleEndian32(r2 / 0x100, r2 % 0x100, r1 % 0x100, x % 0x100)
  }

  // Multipliers and their inverses modulo 2^32.
  const C1: U32 := 0xcc9e2d51
  const C1_INV: U32 := 0xdee13bb1
  const C2: U32 := 0x1b873593
  const C2_INV: U32 := 0x56ed309b
  const M1: U32 := 0x85ebca6b
  const M1_INV: U32 := 0xa5cb9243
  const M2: U32 := 0xc2b2ae35
  const M2_INV: U32 := 0x7ed1b41d
  const FIVE_INV: U32 := 0xcccccccd

  predicate Inverse(c: U32, d: U32) {
    c * d % 0x1_0000_0000 == 1
  }

  lemma {:induction false} Inverses()
    ensures Inverse(C1, C1_INV) && Inverse(C2, C2_INV) && Inverse(M1, M1_INV) && Inverse(M2, M2_INV) && Inverse(5, FIVE_INV)
    ensures Inverse(C1_INV, C1) && Inverse(C2_INV, C2) && Inverse(M1_INV, M1) && Inverse(M2_INV, M2) && Inverse(FIVE_INV, 5)
  {
  }

  lemma {:induction false} MulUndo(x: U32, c: U32, d: U32)
    requires Inverse(c, d)
    ensures Mul32(Mul32(x, c), d) == x
  {
    MulInverse(x, c, d, 0x1_0000_0000);
  }

  lemma {:induction false} AddUndo(x: U32, y: U32)
    ensures Sub32(Add32(x, y), y) == x && Add32(Sub32(x, y), y) == x
  {
  }

  lemma {:induction false} XorUndo(x: U32, y: U32)
    ensures Xor32(Xor32(x, y), y) == x
  {
    XorCancel(x, y);
  }

  lemma {:induction false} RotateUndo(x: U32, k: nat)
    ensures Unrotate32(Rotate32(x, k), k) == x && Rotate32(Unrotate32(x, k), k) == x
  {
    UnrotateRotate(x, k, 0x8000_0000);
    RotateUnrotate(x, k, 0x8000_0000);
  }

  lemma {:induction false} MixUndo(x: U32, k: nat)
    requires k > 0
    ensures Unmix32(Mix32(x, k), k) == x && Mix32(Unmix32(x, k), k) == x
  {
    UnmixMix(x, k);
    MixUnmix(x, k);
  }

  /** A word determines its bytes. */
  lemma {:induction false} BytesOfWord(b0: Byte, b1: Byte, b2: Byte, b3: Byte)
    ensures var x := LittleEndian32(b0, b1, b2, b3);
            x % 0x100 == b0 && x / 0x100 % 0x100 == b1 && x / 0x100 / 0x100 % 0x100 == b2 && x / 0x100 / 0x100 / 0x100 == b3
  {
    var x := LittleEndian32(b0, b1, b2, b3);
    assert x / 0x100 == b1 + 0x100 * (b2 + 0x100 * b3 as int);
    assert x / 0x100 / 0x100 == b2 + 0x100 * b3 as int;
  }

  lemma {:induction false} BswapUndo(x: U32)
    ensures Bswap32(Bswap32(x)) == x
  {
    var r1 := x / 0x100;
    var r2 := r1 / 0x100;
    BytesOfWord(r2 / 0x100, r2 % 0x100, r1 % 0x100, x % 0x100);
  }

  /** rpc/detail/city.cc:124 as it is written, for a shift inside the word. */
  lemma {:induction false} RotateMeansShifts(x: U32, k: nat)
    requires 0 < k < 32
    ensures Rotate32(x, k) == x / Pow2(k) + x * Pow2(32 - k) % 0x1_0000_0000
  {
    hide Rotate, Shr;
    Pow2Of32();
    assert Pow2(31) == 0x8000_0000;
    RotateIsShifts(x, k, 32);
    ShrDivides(x, k);
    Pow2Sum(k, 32 - k);
    ShiftedLowBits(x, Pow2(k), Pow2(32 - k));
  }

  // ----- Mixing steps and their inverses -----

  function Fmix(h: U32): U32 {
    Mix32(Mul32(Mix32(Mul32(Mix32(h, 16), M1), 13), M2), 16)
  }

  function Unfmix(h: U32): U32 {
    Unmix32(Mul32(Unmix32(Mul32(Unmix32(h, 16), M2_INV), 13), M1_INV), 16)
  }

  /** fmix is a bijection on 32-bit words. */
  lemma {:induction false} FmixBijection(h: U32)
    ensures Unfmix(Fmix(h)) == h && Fmix(Unfmix(h)) == h
  {
    hide Mix32, Unmix32, Mul32, Inverse;
    Inverses();
    var a := Mix32(h, 16);
    var b := Mul32(a, M1);
    var c := Mix32(b, 13);
    var d := Mul32(c, M2);
    MixUndo(h, 16); MulUndo(a, M1, M1_INV); MixUndo(b, 13); MulUndo(c, M2, M2_INV); MixUndo(d, 16);
    var e := Unmix32(h, 16);
    var f := Mul32(e, M2_INV);
    var g := Unmix32(f, 13);
    var i := Mul32(g, M1_INV);
    MulUndo(e, M2_INV, M2); MixUndo(f, 13); MulUndo(g, M1_INV, M1); MixUndo(i, 16);
  }

  /** The mixing of one word of content: Rotate32(x * c1, 17) * c2. */
  function Scramble(x: U32): U32 {
    Mul32(Rotate32(Mul32(x, C1), 17), C2)
  }

  function Unscramble(y: U32): U32 {
    Mul32(Unrotate32(Mul32(y, C2_INV), 17), C1_INV)
  }

  lemma {:induction false} UnscrambleScramble(x: U32)
    ensures Unscramble(Scramble(x)) == x
  {
    hide Rotate32, Unrotate32, Mul32, Inverse;
    Inverses();
    var a := Mul32(x, C1);
    MulUndo(x, C1, C1_INV); RotateUndo(a, 17); MulUndo(Rotate32(a, 17), C2, C2_INV);
  }

  /** Rotate32(x, k) * 5 + 0xe6546b64. */
  function Stir(x: U32, k: nat): U32 {
    Add32(Mul32(Rotate32(x, k), 5), 0xe6546b64)
  }

  function Unstir(y: U32, k: nat): U32 {
    Unrotate32(Mul32(Sub32(y, 0xe6546b64), FIVE_INV), k)
  }

  lemma {:induction false} StirBijection(x: U32, k: nat)
    ensures Unstir(Stir(x, k), k) == x && Stir(Unstir(x, k), k) == x
  {
    hide Rotate32, Unrotate32, Mul32, Add32, Sub32, Inverse;
    Inverses();
    var a := Rotate32(x, k);
    RotateUndo(x, k); MulUndo(a, 5, FIVE_INV); AddUndo(Mul32(a, 5), 0xe6546b64);
    var b := Sub32(x, 0xe6546b64);
    var c := Mul32(b, FIVE_INV);
    AddUndo(x, 0xe6546b64); MulUndo(b, FIVE_INV, 5); RotateUndo(c, k);
  }

  function Mur(a: U32, h: U32): U32 {
    Stir(Xor32(h, Scramble(a)), 19)
  }

  /** Mur is a bijection in each argument: each is recovered from the result and the other. */
  lemma {:induction false} MurBijection(a: U32, h: U32)
    ensures Xor32(Unstir(Mur(a, h), 19), Scramble(a)) == h
    ensures Unscramble(Xor32(Unstir(Mur(a, h), 19), h)) == a
  {
    hide Stir, Unstir, Scramble, Unscramble;
    var x := Scramble(a);
    StirBijection(Xor32(h, x), 19);
    XorUndo(h, x);
    XorSwap(h, x);
    XorUndo(x, h);
    UnscrambleScramble(a);
  }

  // ----- Fetching -----

  /** The words at these offsets. */
  function FetchAll(s: seq<Byte>, offsets: seq<nat>): (w: seq<U32>)
    requires InRange(offsets, 4, |s|)
    ensures |w| == |offsets| && forall k | 0 <= k < |w| :: w[k] == Fetch32(s, offsets[k])
  {
    seq(|offsets|, k requires 0 <= k < |offsets| => Fetch32(s, offsets[k]))
  }

  function ToWord(n: nat): U32 {
    n % 0x1_0000_0000
  }

  // ----- Short inputs -----

  /** Mur over a list of words, from the first. */
  function MurChain(w: seq<U32>, h: U32): U32 {
    if w == [] then h else Mur(w[|w| - 1], MurChain(w[..|w| - 1], h))
  }

  /** Changing one word of the list changes the result. */
  lemma {:induction false} MurChainDistinguishes(v: seq<U32>, w: seq<U32>, h: U32, k: nat)
    requires |v| == |w| && k < |v| && v[k] != w[k]
    requires forall i | 0 <= i < |v| && i != k :: v[i] == w[i]
    ensures MurChain(v, h) != MurChain(w, h)
  {
    hide Mur;
    var n := |v| - 1;
    var p, q := MurChain(v[..n], h), MurChain(w[..n], h);
    if k == n {
      assert v[..n] == w[..n];
    } else {
      MurChainDistinguishes(v[..n], w[..n], h, k);
    }
    MurBijection(v[n], p);
    MurBijection(w[n], q);
  }

  function Offsets13to24(n: nat): seq<nat>
    requires n >= 13
  {
    [n / 2 - 4, 4, n - 8, n / 2, 0, n - 4]
  }

  function Hash32Len13to24(s: seq<Byte>): U32
    requires 13 <= |s| <= 24
  {
    Fmix(MurChain(FetchAll(s, Offsets13to24(|s|)), |s|))
  }

  function Offsets5to12(n: nat): seq<nat>
    requires n >= 5
  {
    [0, n - 4, if n / 2 / 4 % 2 == 1 then 4 else 0]
  }

  function Hash32Len5to12(s: seq<Byte>): U32
    requires 5 <= |s| <= 12
  {
    var n, w := |s|, FetchAll(s, Offsets5to12(|s|));
    Fmix(MurChain([Add32(n, w[0]), Add32(n * 5, w[1]), Add32(9, w[2])], n * 5))
  }

  datatype Short = Short(b: U32, c: U32)

  /** A char converted to uint32: sign-extended. */
  function SignedChar(v: Byte): U32 {
    if v < 128 then v else 0xffff_ff00 + v as int
  }

  function ShortStep(p: Short, v: Byte): Short {
    var b := Add32(Mul32(p.b, C1), SignedChar(v));
    Short(b, Xor32(p.c, b))
  }

  /** The loop of Hash32Len0to4 over the first n bytes, each a signed char. */
  function ShortLoop(s: seq<Byte>, n: nat): Short
    requires n <= |s|
  {
    if n == 0 then Short(0, 9)
    else
      ShortStep(ShortLoop(s, n - 1), s[n - 1])
  }

  function Hash32Len0to4(s: seq<Byte>): U32
    requires |s| <= 4
  {
    var p := ShortLoop(s, |s|);
    Fmix(Mur(p.b, Mur(|s|, p.c)))
  }

  // ----- Long inputs -----

  datatype State = State(f: U32, g: U32, h: U32)

  /** city.cc:202-224 on the five words at one position, before s += 20. */
  function Round(x: State, w: seq<U32>): State
    requires |w| == 5
  {
    var a0, a1, a2, a3, a4 := Scramble(w[0]), w[1], Scramble(w[2]), Scramble(w[3]), w[4];
    var h := Stir(Xor32(x.h, a0), 18);
    var f := Mul32(Rotate32(Add32(x.f, a1), 19), C1);
    var g := Stir(Add32(x.g, a2), 18);
    var h2 := Stir(Xor32(h, Add32(a3, a1)), 19);
    var g2 := Mul32(Bswap32(Xor32(g, a4)), 5);
    var h3 := Bswap32(Add32(h2, Mul32(a4, 5)));
    var f2 := Add32(f, a0);
    State(g2, h3, f2)
  }

  function Unround(y: State, w: seq<U32>): State
    requires |w| == 5
  {
    var a0, a1, a2, a3, a4 := Scramble(w[0]), w[1], Scramble(w[2]), Scramble(w[3]), w[4];
    var h2 := Sub32(Bswap32(y.g), Mul32(a4, 5));
    var h := Xor32(Unstir(h2, 19), Add32(a3, a1));
    var g := Xor32(Bswap32(Mul32(y.f, FIVE_INV)), a4);
    var f := Sub32(y.h, a0);
    State(Sub32(Unrotate32(Mul32(f, C1_INV), 19), a1), Sub32(Unstir(g, 18), a2), Xor32(Unstir(h, 18), a0))
  }

  /** Each round is a permutation of the state for fixed content. */
  lemma {:induction false} RoundBijection(x: State, w: seq<U32>)
    requires |w| == 5
    ensures Unround(Round(x, w), w) == x && Round(Unround(x, w), w) == x
  {
    RoundForward(x, w);
    RoundBackward(x, w);
  }

  lemma {:induction false} RoundForward(x: State, w: seq<U32>)
    requires |w| == 5
    ensures Unround(Round(x, w), w) == x
  {
    hide Scramble, Stir, Unstir, Bswap32, Xor32, Add32, Sub32, Mul32, Rotate32, Unrotate32, Inverse;
    Inverses();
    var a0, a1, a2, a3, a4 := Scramble(w[0]), w[1], Scramble(w[2]), Scramble(w[3]), w[4];
    var u := Xor32(x.h, a0);
    var h := Stir(u, 18);
    var v := Xor32(h, Add32(a3, a1));
    var h2 := Stir(v, 19);
    XorUndo(x.h, a0); StirBijection(u, 18); XorUndo(h, Add32(a3, a1)); StirBijection(v, 19);
    AddUndo(h2, Mul32(a4, 5)); BswapUndo(Add32(h2, Mul32(a4, 5)));
    var f0 := Add32(x.f, a1);
    AddUndo(x.f, a1); RotateUndo(f0, 19); MulUndo(Rotate32(f0, 19), C1, C1_INV); AddUndo(Mul32(Rotate32(f0, 19), C1), a0);
    var g0 := Add32(x.g, a2);
    var g := Stir(g0, 18);
    AddUndo(x.g, a2); StirBijection(g0, 18); XorUndo(g, a4); BswapUndo(Xor32(g, a4));
    MulUndo(Bswap32(Xor32(g, a4)), 5, FIVE_INV);
  }

  lemma {:induction false} RoundBackward(y: State, w: seq<U32>)
    requires |w| == 5
    ensures Round(Unround(y, w), w) == y
  {
    hide Scramble, Stir, Unstir, Bswap32, Xor32, Add32, Sub32, Mul32, Rotate32, Unrotate32, Inverse;
    Inverses();
    var a0, a1, a2, a3, a4 := Scramble(w[0]), w[1], Scramble(w[2]), Scramble(w[3]), w[4];
    var b := Bswap32(y.g);
    var h2 := Sub32(b, Mul32(a4, 5));
    var h := Xor32(Unstir(h2, 19), Add32(a3, a1));
    BswapUndo(y.g); AddUndo(b, Mul32(a4, 5)); StirBijection(h2, 19); XorUndo(Unstir(h2, 19), Add32(a3, a1));
    StirBijection(h, 18); XorUndo(Unstir(h, 18), a0);
    var m := Mul32(y.f, FIVE_INV);
    var g := Xor32(Bswap32(m), a4);
    MulUndo(y.f, FIVE_INV, 5); BswapUndo(m); XorUndo(Bswap32(m), a4); StirBijection(g, 18); AddUndo(Unstir(g, 18), a2);
    var f := Sub32(y.h, a0);
    var r := Mul32(f, C1_INV);
    AddUndo(y.h, a0); MulUndo(f, C1_INV, C1); RotateUndo(r, 19); AddUndo(Unrotate32(r, 19), a1);
  }

  function BlockOffsets(p: nat): seq<nat> {
    [p, p + 4, p + 8, p + 12, p + 16]
  }

  /** The main loop: rounds over the blocks from the start of s. */
  function Rounds(x: State, s: seq<Byte>, iters: nat): State
    requires 20 * iters <= |s|
  {
    if iters == 0 then x
    else Round(Rounds(x, s, iters - 1), FetchAll(s, BlockOffsets(20 * (iters - 1))))
  }

  function Unrounds(y: State, s: seq<Byte>, iters: nat): State
    requires 20 * iters <= |s|
    decreases iters
  {
    if iters == 0 then y
    else Unrounds(Unround(y, FetchAll(s, BlockOffsets(20 * (iters - 1)))), s, iters - 1)
  }

  lemma {:induction false} UnroundsRounds(x: State, s: seq<Byte>, iters: nat)
    requires 20 * iters <= |s|
    ensures Unrounds(Rounds(x, s, iters), s, iters) == x
    decreases iters
  {
    hide Round, Unround, FetchAll;
    if iters > 0 {
      RoundBijection(Rounds(x, s, iters - 1), FetchAll(s, BlockOffsets(20 * (iters - 1))));
      UnroundsRounds(x, s, iters - 1);
    }
  }

  lemma {:induction false} RoundsUnrounds(y: State, s: seq<Byte>, iters: nat)
    requires 20 * iters <= |s|
    ensures Rounds(Unrounds(y, s, iters), s, iters) == y
    decreases iters
  {
    hide Round, Unround, FetchAll;
    if iters > 0 {
      var w := FetchAll(s, BlockOffsets(20 * (iters - 1)));
      RoundBijection(y, w);
      RoundsUnrounds(Unround(y, w), s, iters - 1);
    }
  }

  /** For any content and any number of rounds, the main loop is a permutation of its state. */
  lemma {:induction false} MainLoopBijection(x: State, s: seq<Byte>, iters: nat)
    requires 20 * iters <= |s|
    ensures Unrounds(Rounds(x, s, iters), s, iters) == x && Rounds(Unrounds(x, s, iters), s, iters) == x
  {
    UnroundsRounds(x, s, iters);
    RoundsUnrounds(x, s, iters);
  }

  function TailOffsets(n: nat): seq<nat>
    requires n >= 20
  {
    [n - 4, n - 8, n - 16, n - 12, n - 20]
  }

  /** city.cc:179-199: the end of the input first. */
  function Start(s: seq<Byte>): State
    requires |s| > 24
  {
    var n, w := ToWord(|s|), FetchAll(s, TailOffsets(|s|));
    var g := Mul32(C1, n);
    State(Stir(Add32(g, Scramble(w[4])), 19),
          Stir(Xor32(Stir(Xor32(g, Scramble(w[1])), 19), Scramble(w[3])), 19),
          Stir(Xor32(Stir(Xor32(n, Scramble(w[0])), 19), Scramble(w[2])), 19))
  }

  /** city.cc:227-237. */
  function FinalMix(x: State): U32 {
    var g := Mul32(Rotate32(Mul32(Rotate32(x.g, 11), C1), 17), C1);
    var f := Mul32(Rotate32(Mul32(Rotate32(x.f, 11), C1), 17), C1);
    var h := Mul32(Rotate32(Stir(Add32(x.h, g), 19), 17), C1);
    Mul32(Rotate32(Stir(Add32(h, f), 19), 17), C1)
  }

  /** Rotate by 11, multiply, rotate by 17, multiply: city.cc:227-230. */
  function Tumble(x: U32): U32 {
    Mul32(Rotate32(Mul32(Rotate32(x, 11), C1), 17), C1)
  }

  function Untumble(y: U32): U32 {
    Unrotate32(Mul32(Unrotate32(Mul32(y, C1_INV), 17), C1_INV), 11)
  }

  lemma {:induction false} TumbleBijection(x: U32)
    ensures Untumble(Tumble(x)) == x && Tumble(Untumble(x)) == x
  {
    hide Mul32, Rotate32, Unrotate32, Inverse;
    Inverses();
    var a := Rotate32(x, 11);
    var b := Rotate32(Mul32(a, C1), 17);
    RotateUndo(x, 11); MulUndo(a, C1, C1_INV); RotateUndo(Mul32(a, C1), 17); MulUndo(b, C1, C1_INV);
    var c := Mul32(x, C1_INV);
    var d := Unrotate32(c, 17);
    MulUndo(x, C1_INV, C1); RotateUndo(c, 17); MulUndo(d, C1_INV, C1); RotateUndo(Mul32(d, C1_INV), 11);
  }

  /** city.cc:231-233 after the addition, and 234-236. */
  function Settle(x: U32): U32 {
    Mul32(Rotate32(Stir(x, 19), 17), C1)
  }

  function Unsettle(y: U32): U32 {
    Unstir(Unrotate32(Mul32(y, C1_INV), 17), 19)
  }

  lemma {:induction false} SettleBijection(x: U32)
    ensures Unsettle(Settle(x)) == x && Settle(Unsettle(x)) == x
  {
    hide Mul32, Rotate32, Unrotate32, Inverse, Stir, Unstir;
    Inverses();
    var a := Stir(x, 19);
    StirBijection(x, 19); RotateUndo(a, 17); MulUndo(Rotate32(a, 17), C1, C1_INV);
    var c := Mul32(x, C1_INV);
    MulUndo(x, C1_INV, C1); RotateUndo(c, 17); StirBijection(Unrotate32(c, 17), 19);
  }

  /** Each of f, g and h back from the hash and the other two. */
  function FinalF(hash: U32, g: U32, h: U32): U32 {
    Untumble(Sub32(Unsettle(hash), Settle(Add32(h, Tumble(g)))))
  }

  function FinalG(hash: U32, f: U32, h: U32): U32 {
    Untumble(Sub32(Unsettle(Sub32(Unsettle(hash), Tumble(f))), h))
  }

  function FinalH(hash: U32, f: U32, g: U32): U32 {
    Sub32(Unsettle(Sub32(Unsettle(hash), Tumble(f))), Tumble(g))
  }

  lemma {:induction false} FinalMixForm(x: State)
    ensures FinalMix(x) == Settle(Add32(Settle(Add32(x.h, Tumble(x.g))), Tumble(x.f)))
  {
    hide Mul32, Rotate32, Add32;
  }

  /** FinalMix is a bijection in each part of the state, for fixed values of the other two. */
  lemma {:induction false} FinalMixBijection(x: State, hash: U32)
    ensures FinalF(FinalMix(x), x.g, x.h) == x.f && FinalMix(x.(f := FinalF(hash, x.g, x.h))) == hash
    ensures FinalG(FinalMix(x), x.f, x.h) == x.g && FinalMix(x.(g := FinalG(hash, x.f, x.h))) == hash
    ensures FinalH(FinalMix(x), x.f, x.g) == x.h && FinalMix(x.(h := FinalH(hash, x.f, x.g))) == hash
  {
    hide Tumble, Untumble, Settle, Unsettle, Add32, Sub32, FinalMix;
    FinalForward(x);
    FinalBackward(x, hash);
  }

  lemma {:induction false} FinalForward(x: State)
    ensures FinalF(FinalMix(x), x.g, x.h) == x.f && FinalG(FinalMix(x), x.f, x.h) == x.g && FinalH(FinalMix(x), x.f, x.g) == x.h
  {
    hide Tumble, Untumble, Settle, Unsettle, Add32, Sub32, FinalMix;
    FinalMixForm(x);
    var f, g := Tumble(x.f), Tumble(x.g);
    var a := Add32(x.h, g);
    var b := Add32(Settle(a), f);
    TumbleBijection(x.f); TumbleBijection(x.g); SettleBijection(a); SettleBijection(b);
    AddUndo(x.h, g); AddUndo(Settle(a), f); AddSwap(x.h, g); AddSwap(Settle(a), f);
    AddUndo(g, x.h); AddUndo(f, Settle(a));
  }

  lemma {:induction false} AddSwap(x: U32, y: U32)
    ensures Add32(x, y) == Add32(y, x)
  {
  }

  lemma {:induction false} FinalBackward(x: State, hash: U32)
    ensures FinalMix(x.(f := FinalF(hash, x.g, x.h))) == hash
    ensures FinalMix(x.(g := FinalG(hash, x.f, x.h))) == hash
    ensures FinalMix(x.(h := FinalH(hash, x.f, x.g))) == hash
  {
    hide Tumble, Untumble, Settle, Unsettle, Add32, Sub32, FinalMix;
    FinalMixForm(x.(f := FinalF(hash, x.g, x.h)));
    FinalMixForm(x.(g := FinalG(hash, x.f, x.h)));
    FinalMixForm(x.(h := FinalH(hash, x.f, x.g)));
    var e, k := Unsettle(hash), Settle(Add32(x.h, Tumble(x.g)));
    SettleBijection(hash);
    TumbleBijection(Sub32(e, k)); AddUndo(e, k); AddSwap(k, Sub32(e, k));
    var d := Sub32(e, Tumble(x.f));
    AddUndo(e, Tumble(x.f)); SettleBijection(d);
    var c := Unsettle(d);
    TumbleBijection(Sub32(c, x.h)); AddUndo(c, x.h); AddSwap(x.h, Sub32(c, x.h)); AddUndo(c, Tumble(x.g));
  }

  /** The tail words of a long input. */
  function TailWords(s: seq<Byte>): (w: seq<U32>)
    requires |s| > 24
    ensures |w| == 5
  {
    FetchAll(s, TailOffsets(|s|))
  }

  /** Start as a function of the length and the tail words. */
  function StartOf(n: U32, w: seq<U32>): State
    requires |w| == 5
  {
    var g := Mul32(C1, n);
    State(Stir(Add32(g, Scramble(w[4])), 19), Mur(w[3], Mur(w[1], g)), Mur(w[2], Mur(w[0], n)))
  }

  lemma {:induction false} StartIs(s: seq<Byte>)
    requires |s| > 24
    ensures Start(s) == StartOf(ToWord(|s|), TailWords(s))
  {
    hide Stir, Scramble, Mul32, Add32, Xor32, FetchAll;
  }

  lemma {:induction false} MurInjective(a: U32, b: U32, h: U32, g: U32)
    requires Mur(a, h) == Mur(b, g)
    ensures a == b ==> h == g
    ensures h == g ==> a == b
  {
    hide Mur;
    MurBijection(a, h);
    MurBijection(b, g);
  }

  /** Two inputs over 24 bytes of one length that differ in one fetched tail word start from
      different states; so do two of different lengths (modulo 2^32) with the same tail words. */
  lemma {:induction false} StartDistinguishes(s: seq<Byte>, t: seq<Byte>, k: nat)
    requires |s| > 24 && |t| > 24 && k < 5
    requires forall j | 0 <= j < 5 && j != k :: TailWords(s)[j] == TailWords(t)[j]
    ensures ToWord(|s|) == ToWord(|t|) && TailWords(s)[k] != TailWords(t)[k] ==> Start(s) != Start(t)
    ensures ToWord(|s|) != ToWord(|t|) && TailWords(s)[k] == TailWords(t)[k] ==> Start(s) != Start(t)
  {
    hide Start, TailWords, ToWord, StartOf;
    StartIs(s);
    StartIs(t);
    var n, m, v, w := ToWord(|s|), ToWord(|t|), TailWords(s), TailWords(t);
    assert v[k] == w[k] ==> v == w;
    if StartOf(n, v) == StartOf(m, w) {
      if n == m {
        SameStart(n, v, w, k);
      } else if v == w {
        SameLengthStart(n, m, v);
      }
    }
  }

  lemma {:induction false} SameStart(n: U32, v: seq<U32>, w: seq<U32>, k: nat)
    requires |v| == |w| == 5 && k < 5 && StartOf(n, v) == StartOf(n, w)
    requires forall j | 0 <= j < 5 && j != k :: v[j] == w[j]
    ensures v[k] == w[k]
  {
    hide Mur, Stir, Scramble, Add32, Mul32;
    var g := Mul32(C1, n);
    MurInjective(v[2], w[2], Mur(v[0], n), Mur(w[0], n));
    MurInjective(v[3], w[3], Mur(v[1], g), Mur(w[1], g));
    if k == 0 { MurInjective(v[0], w[0], n, n); }
    if k == 1 { MurInjective(v[1], w[1], g, g); }
    if k == 4 {
      var a, b := Scramble(v[4]), Scramble(w[4]);
      StirBijection(Add32(g, a), 19); StirBijection(Add32(g, b), 19);
      AddSwap(g, a); AddSwap(g, b); AddUndo(a, g); AddUndo(b, g);
      UnscrambleScramble(v[4]); UnscrambleScramble(w[4]);
    }
  }

  lemma {:induction false} SameLengthStart(n: U32, m: U32, w: seq<U32>)
    requires |w| == 5 && StartOf(n, w) == StartOf(m, w)
    ensures n == m
  {
    hide Mur, Stir, Scramble, Add32, Mul32;
    MurInjective(w[2], w[2], Mur(w[0], n), Mur(w[0], m));
    MurInjective(w[0], w[0], n, m);
  }

  function CityHash32(s: seq<Byte>): U32 {
    if |s| <= 4 then Hash32Len0to4(s)
    else if |s| <= 12 then Hash32Len5to12(s)
    else if |s| <= 24 then Hash32Len13to24(s)
    else FinalMix(Rounds(Start(s), s, (|s| - 1) / 20))
  }

  // ----- The source's statements -----
  //
  // A string is a pointer p into an input. Each method computes its function of the string and reads
  // exactly the string: every position from p on, and none else.

  ghost predicate ReadAll(before: set<int>, after: set<int>, p: nat, end: nat) {
    after == before + Span(p, end)
  }

  lemma {:induction false} MurChainOf(w: seq<U32>, h: U32)
    ensures |w| == 3 ==> MurChain(w, h) == Mur(w[2], Mur(w[1], Mur(w[0], h)))
    ensures |w| == 6 ==> MurChain(w, h) == Mur(w[5], Mur(w[4], Mur(w[3], Mur(w[2], Mur(w[1], Mur(w[0], h))))))
  {
    hide Mur;
    if |w| == 3 {
      var v := w[..2];
      assert v[..1] == [w[0]] && [w[0]][..0] == [];
      assert MurChain([w[0]], h) == Mur(w[0], MurChain([], h));
      assert MurChain(v, h) == Mur(w[1], MurChain(v[..1], h));
    } else if |w| == 6 {
      MurChainOf(w[..3], h);
      assert w[..5][..4] == w[..4] && w[..4][..3] == w[..3];
      assert MurChain(w[..4], h) == Mur(w[3], MurChain(w[..3], h));
      assert MurChain(w[..5], h) == Mur(w[4], MurChain(w[..4], h));
    }
  }

  lemma {:induction false} Spans13to24(p: nat, n: nat)
    requires 13 <= n <= 24
    ensures Span(p + (n / 2 - 4), p + (n / 2 - 4) + 4) + Span(p + 4, p + 4 + 4) + Span(p + (n - 8), p + (n - 8) + 4)
            + Span(p + n / 2, p + n / 2 + 4) + Span(p + 0, p + 0 + 4) + Span(p + (n - 4), p + (n - 4) + 4) == Span(p, p + n)
  {
  }

  method ComputeHash32Len13to24(input: Input, p: nat) returns (hash: U32)
    requires 13 <= |input.bytes| - p <= 24
    modifies input`read
    ensures hash == Hash32Len13to24(input.bytes[p..])
    ensures ReadAll(old(input.read), input.read, p, |input.bytes|)
  {
    hide Fmix, Mur, Fetch32, MurChain, Span;
    ghost var s := input.bytes[p..];
    var len := |input.bytes| - p;
    var a := input.Load32(p, len / 2 - 4);
    var b := input.Load32(p, 4);
    var c := input.Load32(p, len - 8);
    var d := input.Load32(p, len / 2);
    var e := input.Load32(p, 0);
    var f := input.Load32(p, len - 4);
    Spans13to24(p, len);
    var h := len;
    MurChainOf([a, b, c, d, e, f], h);
    assert FetchAll(s, Offsets13to24(len)) == [a, b, c, d, e, f];
    hash := Fmix(Mur(f, Mur(e, Mur(d, Mur(c, Mur(b, Mur(a, h)))))));
  }

  method ComputeHash32Len0to4(input: Input, p: nat) returns (hash: U32)
    requires 0 <= |input.bytes| - p <= 4
    modifies input`read
    ensures hash == Hash32Len0to4(input.bytes[p..])
    ensures ReadAll(old(input.read), input.read, p, |input.bytes|)
  {
    hide Fmix, Mur, Mul32, Add32, Xor32;
    ghost var s := input.bytes[p..];
    var len := |input.bytes| - p;
    var b: U32, c: U32, i := 0, 9, 0;
    while i < len
      invariant 0 <= i <= len && Short(b, c) == ShortLoop(s, i)
      invariant input.read == old(input.read) + Span(p, p + i)
    {
      var v := input.Load8(p, i);
      b := Add32(Mul32(b, C1), SignedChar(v));
      c := Xor32(c, b);
      i := i + 1;
    }
    hash := Fmix(Mur(b, Mur(len, c)));
  }

  method ComputeHash32Len5to12(input: Input, p: nat) returns (hash: U32)
    requires 5 <= |input.bytes| - p <= 12
    modifies input`read
    ensures hash == Hash32Len5to12(input.bytes[p..])
    ensures ReadAll(old(input.read), input.read, p, |input.bytes|)
  {
    hide Fmix, Mur, Fetch32, MurChain, Add32;
    ghost var s := input.bytes[p..];
    var len := |input.bytes| - p;
    var a: U32, b: U32, c: U32, d: U32 := len, len * 5, 9, len * 5;
    var x := input.Load32(p, 0);
    a := Add32(a, x);
    var y := input.Load32(p, len - 4);
    b := Add32(b, y);
    var z := input.Load32(p, if len / 2 / 4 % 2 == 1 then 4 else 0);
    c := Add32(c, z);
    MurChainOf([a, b, c], d);
    assert FetchAll(s, Offsets5to12(len)) == [x, y, z];
    hash := Fmix(Mur(c, Mur(b, Mur(a, d))));
  }

  /** city.cc:179-199. */
  method Preamble(input: Input, p: nat) returns (f: U32, g: U32, h: U32)
    requires |input.bytes| - p > 24
    modifies input`read
    ensures State(f, g, h) == Start(input.bytes[p..])
    ensures input.read == old(input.read) + Span(|input.bytes| - 20, |input.bytes|)
  {
    hide Mul32, Rotate32, Add32, Xor32, Fetch32;
    ghost var s := input.bytes[p..];
    var len := |input.bytes| - p;
    h, g := ToWord(len), Mul32(C1, ToWord(len));
    f := g;
    var w0 := input.Load32(p, len - 4);
    var a0 := Mul32(Rotate32(Mul32(w0, C1), 17), C2);
    var w1 := input.Load32(p, len - 8);
    var a1 := Mul32(Rotate32(Mul32(w1, C1), 17), C2);
    var w2 := input.Load32(p, len - 16);
    var a2 := Mul32(Rotate32(Mul32(w2, C1), 17), C2);
    var w3 := input.Load32(p, len - 12);
    var a3 := Mul32(Rotate32(Mul32(w3, C1), 17), C2);
    var w4 := input.Load32(p, len - 20);
    var a4 := Mul32(Rotate32(Mul32(w4, C1), 17), C2);
    assert FetchAll(s, TailOffsets(len)) == [w0, w1, w2, w3, w4];
    h := Xor32(h, a0);
    h := Rotate32(h, 19);
    h := Add32(Mul32(h, 5), 0xe6546b64);
    h := Xor32(h, a2);
    h := Rotate32(h, 19);
    h := Add32(Mul32(h, 5), 0xe6546b64);
    g := Xor32(g, a1);
    g := Rotate32(g, 19);
    g := Add32(Mul32(g, 5), 0xe6546b64);
    g := Xor32(g, a3);
    g := Rotate32(g, 19);
    g := Add32(Mul32(g, 5), 0xe6546b64);
    f := Add32(f, a4);
    f := Rotate32(f, 19);
    f := Add32(Mul32(f, 5), 0xe6546b64);
  }

  /** city.cc:202-224, on the twenty bytes at s + at. */
  method RoundBody(input: Input, p: nat, at: nat, f0: U32, g0: U32, h0: U32) returns (f: U32, g: U32, h: U32)
    requires p + at + 20 <= |input.bytes|
    modifies input`read
    ensures State(f, g, h) == Round(State(f0, g0, h0), FetchAll(input.bytes[p..], BlockOffsets(at)))
    ensures input.read == old(input.read) + Span(p + at, p + at + 20)
  {
    hide Mul32, Rotate32, Add32, Xor32, Bswap32, Fetch32;
    ghost var s := input.bytes[p..];
    f, g, h := f0, g0, h0;
    var w0 := input.Load32(p, at);
    var a0 := Mul32(Rotate32(Mul32(w0, C1), 17), C2);
    var a1 := input.Load32(p, at + 4);
    var w2 := input.Load32(p, at + 8);
    var a2 := Mul32(Rotate32(Mul32(w2, C1), 17), C2);
    var w3 := input.Load32(p, at + 12);
    var a3 := Mul32(Rotate32(Mul32(w3, C1), 17), C2);
    var a4 := input.Load32(p, at + 16);
    assert FetchAll(s, BlockOffsets(at)) == [w0, a1, w2, w3, a4];
    h := Xor32(h, a0);
    h := Rotate32(h, 18);
    h := Add32(Mul32(h, 5), 0xe6546b64);
    f := Add32(f, a1);
    f := Rotate32(f, 19);
    f := Mul32(f, C1);
    g := Add32(g, a2);
    g := Rotate32(g, 18);
    g := Add32(Mul32(g, 5), 0xe6546b64);
    h := Xor32(h, Add32(a3, a1));
    h := Rotate32(h, 19);
    h := Add32(Mul32(h, 5), 0xe6546b64);
    g := Xor32(g, a4);
    g := Mul32(Bswap32(g), 5);
    h := Add32(h, Mul32(a4, 5));
    h := Bswap32(h);
    f := Add32(f, a0);
    f, h := h, f;
    f, g := g, f;
  }

  /** city.cc:171-238. */
  method ComputeCityHash32(input: Input, p: nat) returns (hash: U32)
    requires p <= |input.bytes|
    modifies input`read
    ensures hash == CityHash32(input.bytes[p..])
    ensures ReadAll(old(input.read), input.read, p, |input.bytes|)
  {
    hide Round, Start, Fetch32, Hash32Len0to4, Hash32Len5to12, Hash32Len13to24, Mul32, Rotate32, Add32, FetchAll;
    ghost var s := input.bytes[p..];
    var len := |input.bytes| - p;
    if len <= 24 {
      if len <= 4 {
        hash := ComputeHash32Len0to4(input, p);
      } else if len <= 12 {
        hash := ComputeHash32Len5to12(input, p);
      } else {
        hash := ComputeHash32Len13to24(input, p);
      }
      return;
    }
    var f, g, h := Preamble(input, p);
    var at, iters := 0, (len - 1) / 20;
    ghost var n := 0;
    while true
      invariant iters > 0 && at == 20 * n && n + iters == (len - 1) / 20
      invariant State(f, g, h) == Rounds(Start(s), s, n)
      invariant input.read == old(input.read) + Span(p + len - 20, p + len) + Span(p, p + at)
      decreases iters
    {
      f, g, h := RoundBody(input, p, at, f, g, h);
      at, n := at + 20, n + 1;
      iters := iters - 1;
      if iters == 0 { break; }
    }
    g := Mul32(Rotate32(g, 11), C1);
    g := Mul32(Rotate32(g, 17), C1);
    f := Mul32(Rotate32(f, 11), C1);
    f := Mul32(Rotate32(f, 17), C1);
    h := Rotate32(Add32(h, g), 19);
    h := Add32(Mul32(h, 5), 0xe6546b64);
    h := Mul32(Rotate32(h, 17), C1);
    h := Rotate32(Add32(h, f), 19);
    h := Add32(Mul32(h, 5), 0xe6546b64);
    h := Mul32(Rotate32(h, 17), C1);
    hash := h;
  }

  // ----- Names -----

  /** The offsets of the fetches of a name of 5 to 24 bytes. */
  function NameOffsets(n: nat): seq<nat>
    requires 5 <= n <= 24
  {
    if n <= 12 then Offsets5to12(n) else Offsets13to24(n)
  }

  /** Byte i is read by fetch k and by no other. */
  predicate ReadOnlyBy(o: seq<nat>, k: nat, i: nat)
    requires k < |o|
  {
    o[k] <= i < o[k] + 4 && forall j | 0 <= j < |o| && j != k :: !(o[j] <= i < o[j] + 4)
  }

  /** Two names of one length from 5 to 24 that differ only in bytes read by one fetch, the same for
      all of them and no other, never collide. */
  lemma {:induction false} OneFetchNamesDiffer(s: seq<Byte>, t: seq<Byte>, k: nat)
    requires 5 <= |s| == |t| <= 24 && s != t && k < |NameOffsets(|s|)|
    requires forall i | 0 <= i < |s| && s[i] != t[i] :: ReadOnlyBy(NameOffsets(|s|), k, i)
    ensures CityHash32(s) != CityHash32(t)
  {
    hide CityHash32, FetchAll, Fetch32;
    FetchesDiffer(s, t, NameOffsets(|s|), k);
    if |s| <= 12 { ShortNamesDiffer(s, t, k); } else { MiddleNamesDiffer(s, t, k); }
  }

  lemma {:induction false} FetchesDiffer(s: seq<Byte>, t: seq<Byte>, o: seq<nat>, k: nat)
    requires |s| == |t| && s != t && InRange(o, 4, |s|) && k < |o|
    requires forall i | 0 <= i < |s| && s[i] != t[i] :: ReadOnlyBy(o, k, i)
    ensures FetchAll(s, o)[k] != FetchAll(t, o)[k]
    ensures forall j | 0 <= j < |o| && j != k :: FetchAll(s, o)[j] == FetchAll(t, o)[j]
  {
    hide LittleEndian32;
    forall j | 0 <= j < |o| && j != k ensures FetchAll(s, o)[j] == FetchAll(t, o)[j] {
      forall i | o[j] <= i < o[j] + 4 ensures s[i] == t[i] { }
    }
    WordsDiffer(s, t, o[k]);
  }

  lemma {:induction false} MiddleNamesDiffer(s: seq<Byte>, t: seq<Byte>, k: nat)
    requires 12 < |s| == |t| <= 24 && k < 6
    requires var o := Offsets13to24(|s|);
             FetchAll(s, o)[k] != FetchAll(t, o)[k] && forall j | 0 <= j < |o| && j != k :: FetchAll(s, o)[j] == FetchAll(t, o)[j]
    ensures CityHash32(s) != CityHash32(t)
  {
    hide Fmix, Unfmix, MurChain, FetchAll, Fetch32;
    var n, o := |s|, Offsets13to24(|s|);
    var v, w := FetchAll(s, o), FetchAll(t, o);
    MurChainDistinguishes(v, w, n, k);
    FmixBijection(MurChain(v, n));
    FmixBijection(MurChain(w, n));
  }

  lemma {:induction false} ShortNamesDiffer(s: seq<Byte>, t: seq<Byte>, k: nat)
    requires 5 <= |s| == |t| <= 12 && k < 3
    requires var o := Offsets5to12(|s|);
             FetchAll(s, o)[k] != FetchAll(t, o)[k] && forall j | 0 <= j < |o| && j != k :: FetchAll(s, o)[j] == FetchAll(t, o)[j]
    ensures CityHash32(s) != CityHash32(t)
  {
    hide Fmix, Unfmix, MurChain, FetchAll, Fetch32, Add32;
    var n, o := |s|, Offsets5to12(|s|);
    var v, w := FetchAll(s, o), FetchAll(t, o);
    var v', w' := [Add32(n, v[0]), Add32(n * 5, v[1]), Add32(9, v[2])], [Add32(n, w[0]), Add32(n * 5, w[1]), Add32(9, w[2])];
    AddDistinguishes([n, n * 5, 9][k], v[k], w[k]);
    MurChainDistinguishes(v', w', n * 5, k);
    FmixBijection(MurChain(v', n * 5));
    FmixBijection(MurChain(w', n * 5));
  }

  /** The seed of a Mur chain shows in its result. */
  lemma {:induction false} MurChainSeed(w: seq<U32>, h: U32, g: U32)
    requires h != g
    ensures MurChain(w, h) != MurChain(w, g)
  {
    hide Mur;
    if w != [] {
      var n := |w| - 1;
      MurChainSeed(w[..n], h, g);
      MurBijection(w[n], MurChain(w[..n], h));
      MurBijection(w[n], MurChain(w[..n], g));
    }
  }

  /** The length shows: two names of 13 to 24 bytes with the same six fetched words and different
      lengths never collide. */
  lemma {:induction false} MiddleLengthsDiffer(s: seq<Byte>, t: seq<Byte>)
    requires 12 < |s| <= 24 && 12 < |t| <= 24 && |s| != |t|
    requires FetchAll(s, Offsets13to24(|s|)) == FetchAll(t, Offsets13to24(|t|))
    ensures CityHash32(s) != CityHash32(t)
  {
    hide Fmix, Unfmix, MurChain, FetchAll, Fetch32;
    var w := FetchAll(s, Offsets13to24(|s|));
    MurChainSeed(w, |s|, |t|);
    FmixBijection(MurChain(w, |s|));
    FmixBijection(MurChain(w, |t|));
  }

  /** The words that a name of 5 to 12 bytes is hashed from: the length is added to the fetched ones. */
  function ShortWords(s: seq<Byte>): seq<U32>
    requires 5 <= |s| <= 12
  {
    var n, w := |s|, FetchAll(s, Offsets5to12(|s|));
    [Add32(n, w[0]), Add32(n * 5, w[1]), Add32(9, w[2])]
  }

  /** Two names of 5 to 12 bytes that are hashed from the same words never collide if their lengths
      differ. */
  lemma {:induction false} ShortLengthsDiffer(s: seq<Byte>, t: seq<Byte>)
    requires 5 <= |s| <= 12 && 5 <= |t| <= 12 && |s| != |t| && ShortWords(s) == ShortWords(t)
    ensures CityHash32(s) != CityHash32(t)
  {
    hide Fmix, Unfmix, MurChain, FetchAll, Fetch32, Add32;
    var w := ShortWords(s);
    MurChainSeed(w, |s| * 5, |t| * 5);
    FmixBijection(MurChain(w, |s| * 5));
    FmixBijection(MurChain(w, |t| * 5));
  }

  /** Two names of 5 to 12 bytes whose third fetched words agree collide exactly when the first two
      words, with the lengths, already led to the same value: the third word neither separates nor
      joins them. */
  lemma {:induction false} ShortNamesCollide(s: seq<Byte>, t: seq<Byte>)
    requires 5 <= |s| <= 12 && 5 <= |t| <= 12 && ShortWords(s)[2] == ShortWords(t)[2]
    ensures CityHash32(s) == CityHash32(t) <==>
            Mur(ShortWords(s)[1], Mur(ShortWords(s)[0], |s| * 5)) == Mur(ShortWords(t)[1], Mur(ShortWords(t)[0], |t| * 5))
  {
    hide Fmix, Unfmix, MurChain, FetchAll, Fetch32, Add32, Mur;
    var v, w := ShortWords(s), ShortWords(t);
    MurChainOf(v, |s| * 5);
    MurChainOf(w, |t| * 5);
    FmixBijection(MurChain(v, |s| * 5));
    FmixBijection(MurChain(w, |t| * 5));
    MurBijection(v[2], Mur(v[1], Mur(v[0], |s| * 5)));
    MurBijection(w[2], Mur(w[1], Mur(w[0], |t| * 5)));
  }

  lemma {:induction false} AddDistinguishes(a: U32, x: U32, y: U32)
    requires x != y
    ensures Add32(a, x) != Add32(a, y)
  {
  }

  /** Two 24-byte names that differ only inside one aligned 4-byte word never collide. */
  lemma {:induction false} OneWordNamesDiffer(s: seq<Byte>, t: seq<Byte>, j: nat)
    requires |s| == |t| == 24 && j < 6 && s != t
    requires forall i | 0 <= i < 24 && !(4 * j <= i < 4 * j + 4) :: s[i] == t[i]
    ensures CityHash32(s) != CityHash32(t)
  {
    hide CityHash32;
    var o := NameOffsets(24);
    assert o == [8, 4, 16, 12, 0, 20];
    var k := [4, 1, 0, 3, 2, 5][j];
    assert o[k] == 4 * j;
    forall i | 0 <= i < 24 && s[i] != t[i] ensures ReadOnlyBy(o, k, i) { }
    OneFetchNamesDiffer(s, t, k);
  }

  lemma {:induction false} WordsDiffer(s: seq<Byte>, t: seq<Byte>, p: nat)
    requires |s| == |t| && p + 4 <= |s| && s != t
    requires forall i | 0 <= i < |s| && !(p <= i < p + 4) :: s[i] == t[i]
    ensures Fetch32(s, p) != Fetch32(t, p)
  {
    BytesOfWord(s[p], s[p + 1], s[p + 2], s[p + 3]);
    BytesOfWord(t[p], t[p + 1], t[p + 2], t[p + 3]);
    var i :| 0 <= i < |s| && s[i] != t[i];
    assert i == p || i == p + 1 || i == p + 2 || i == p + 3;
  }
}
