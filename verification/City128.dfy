/** CityHash128 (rpc/detail/city.cc:397-495), which reuses the blocks of CityHash64. */
module City128 {
  import opened Words
  import opened Memory
  import opened City64

  // ----- CityMurmur: under 128 bytes -----

  datatype MurmurState = MurmurState(a: U64, b: U64, c: U64, d: U64)

  function MurmurWord(word: U64): U64 {
    Mul64(ShiftMix(Mul64(word, K1)), K1)
  }

  function MurmurOffsets(p: nat): seq<nat> {
    [p, p + 8]
  }

  /** city.cc:412-417 on the two words of sixteen bytes. */
  function MurmurStep(st: MurmurState, t: seq<U64>): MurmurState
    requires |t| == 2
  {
    var a := Mul64(Xor64(st.a, MurmurWord(t[0])), K1);
    var c := Mul64(Xor64(st.c, MurmurWord(t[1])), K1);
    MurmurState(a, Xor64(st.b, a), c, Xor64(st.d, c))
  }

  function Murmurs(st: MurmurState, s: seq<Byte>, n: nat): MurmurState
    requires 16 * n <= |s|
  {
    if n == 0 then st else MurmurStep(Murmurs(st, s, n - 1), FetchAll(s, MurmurOffsets(16 * (n - 1))))
  }

  function MurmurShort(s: seq<Byte>, seed: Pair): MurmurState
    requires |s| <= 16
  {
    var a := MurmurWord(seed.first);
    var c := Add64(Mul64(seed.second, K1), HashLen0to16(s));
    MurmurState(a, seed.second, c, ShiftMix(Add64(a, if |s| >= 8 then Fetch64(s, 0) else c)))
  }

  function MurmurEndOffsets(n: nat): seq<nat>
    requires n >= 16
  {
    [n - 8, n - 16]
  }

  function MurmurStart(s: seq<Byte>, seed: Pair): MurmurState
    requires |s| > 16
  {
    var t := FetchAll(s, MurmurEndOffsets(|s|));
    var c := HashLen16(Add64(t[0], K1), seed.first);
    var d := HashLen16(Add64(seed.second, ToWord(|s|)), Add64(c, t[1]));
    MurmurState(Add64(seed.first, d), seed.second, c, d)
  }

  function MurmurFinish(st: MurmurState): Pair {
    var a := HashLen16(st.a, st.c);
    var b := HashLen16(st.d, st.b);
    Pair(Xor64(a, b), HashLen16(b, a))
  }

  function CityMurmur(s: seq<Byte>, seed: Pair): Pair {
    MurmurFinish(if |s| <= 16 then MurmurShort(s, seed) else Murmurs(MurmurStart(s, seed), s, (|s| - 1) / 16))
  }

  /** city.cc:412-417, on the sixteen bytes at s + at. */
  method MurmurBody(input: Input, p: nat, at: nat, a0: U64, b0: U64, c0: U64, d0: U64) returns (a: U64, b: U64, c: U64, d: U64)
    requires p + at + 16 <= |input.bytes|
    modifies input`read
    ensures MurmurState(a, b, c, d) == MurmurStep(MurmurState(a0, b0, c0, d0), FetchAll(input.bytes[p..], MurmurOffsets(at)))
    ensures input.read == old(input.read) + Span(p + at, p + at + 16)
  {
    hide Mul64, Xor64, MurmurWord, Fetch64;
    a, b, c, d := a0, b0, c0, d0;
    var t := input.Load64(p, at);
    a := Xor64(a, MurmurWord(t));
    a := Mul64(a, K1);
    b := Xor64(b, a);
    var u := input.Load64(p, at + 8);
    c := Xor64(c, MurmurWord(u));
    c := Mul64(c, K1);
    d := Xor64(d, c);
    assert FetchAll(input.bytes[p..], MurmurOffsets(at)) == [t, u];
  }

  /** The do-while loop, city.cc:411-420. */
  method MixMurmur(input: Input, p: nat, a0: U64, b0: U64, c0: U64, d0: U64) returns (a: U64, b: U64, c: U64, d: U64)
    requires |input.bytes| - p > 16
    modifies input`read
    ensures var s := input.bytes[p..];
            MurmurState(a, b, c, d) == Murmurs(MurmurState(a0, b0, c0, d0), s, (|s| - 1) / 16)
    ensures input.read == old(input.read) + Span(p, p + (|input.bytes| - p - 1) / 16 * 16)
  {
    hide MurmurStep, FetchAll;
    ghost var s, st := input.bytes[p..], MurmurState(a0, b0, c0, d0);
    a, b, c, d := a0, b0, c0, d0;
    var at, l: int := 0, |input.bytes| - p - 16;
    ghost var n := 0;
    while true
      invariant l > 0 && at == 16 * n && at + l == |s| - 16
      invariant MurmurState(a, b, c, d) == Murmurs(st, s, n)
      invariant input.read == old(input.read) + Span(p, p + at)
      decreases l
    {
      a, b, c, d := MurmurBody(input, p, at, a, b, c, d);
      n := n + 1;
      at := at + 16;
      l := l - 16;
      if l <= 0 { break; }
    }
  }

  /** city.cc:404-406. */
  method ComputeMurmurShort(input: Input, p: nat, seed: Pair) returns (a: U64, b: U64, c: U64, d: U64)
    requires 0 <= |input.bytes| - p <= 16
    modifies input`read
    ensures MurmurState(a, b, c, d) == MurmurShort(input.bytes[p..], seed)
    ensures input.read == old(input.read) + Span(p, |input.bytes|)
  {
    hide Mul64, Add64, ShiftMix, HashLen0to16, Fetch64;
    var len := |input.bytes| - p;
    a, b := seed.first, seed.second;
    a := Mul64(ShiftMix(Mul64(a, K1)), K1);
    var t := ComputeHashLen0to16(input, p);
    c := Add64(Mul64(b, K1), t);
    if len >= 8 {
      var u := input.Load64(p, 0);
      d := ShiftMix(Add64(a, u));
    } else {
      d := ShiftMix(Add64(a, c));
    }
  }

  /** city.cc:408-410. */
  method ComputeMurmurStart(input: Input, p: nat, seed: Pair) returns (a: U64, b: U64, c: U64, d: U64)
    requires |input.bytes| - p > 16
    modifies input`read
    ensures MurmurState(a, b, c, d) == MurmurStart(input.bytes[p..], seed)
    ensures input.read == old(input.read) + Span(|input.bytes| - 16, |input.bytes|)
  {
    hide Add64, HashLen16, Fetch64;
    var len := |input.bytes| - p;
    a, b := seed.first, seed.second;
    var t := input.Load64(p, len - 8);
    c := HashLen16(Add64(t, K1), a);
    var u := input.Load64(p, len - 16);
    d := HashLen16(Add64(b, ToWord(len)), Add64(c, u));
    a := Add64(a, d);
    assert FetchAll(input.bytes[p..], MurmurEndOffsets(len)) == [t, u];
  }

  /** city.cc:397-425. */
  method ComputeCityMurmur(input: Input, p: nat, seed: Pair) returns (hash: Pair)
    requires p <= |input.bytes|
    modifies input`read
    ensures hash == CityMurmur(input.bytes[p..], seed)
    ensures input.read == old(input.read) + Span(p, |input.bytes|)
  {
    hide MurmurShort, MurmurStart, Murmurs, HashLen16, Xor64;
    var len := |input.bytes| - p;
    var a, b, c, d: U64;
    if len <= 16 {
      a, b, c, d := ComputeMurmurShort(input, p, seed);
    } else {
      a, b, c, d := ComputeMurmurStart(input, p, seed);
      a, b, c, d := MixMurmur(input, p, a, b, c, d);
      SpansJoin(p, |input.bytes| - 16, p + (len - 1) / 16 * 16, |input.bytes|);
    }
    a := HashLen16(a, c);
    b := HashLen16(d, b);
    hash := Pair(Xor64(a, b), HashLen16(b, a));
  }

  // ----- 128 bytes and over -----

  function SeedOffsets(): seq<nat> {
    [0, 8, 88]
  }

  /** city.cc:435-441. */
  function SeedState(s: seq<Byte>, seed: Pair): State
    requires |s| >= 128
  {
    var t := FetchAll(s, SeedOffsets());
    var x, y, z := seed.first, seed.second, Mul64(ToWord(|s|), K1);
    var v1 := Add64(Mul64(Rotate64(Xor64(y, K1), 49), K1), t[0]);
    var v2 := Add64(Mul64(Rotate64(v1, 42), K1), t[1]);
    State(x, y, z, Pair(v1, v2),
          Pair(Add64(Mul64(Rotate64(Add64(y, z), 35), K1), x), Mul64(Rotate64(Add64(x, t[2]), 53), K1)))
  }

  /** city.cc:465-469: between the blocks and the tail. */
  function Turn(st: State): State {
    State(Add64(st.x, Mul64(Rotate64(Add64(st.v.first, st.z), 49), K0)),
          Add64(Mul64(st.y, K0), Rotate64(st.w.second, 37)),
          Add64(Mul64(st.z, K0), Rotate64(st.w.first, 27)),
          st.v.(first := Mul64(st.v.first, K0)), st.w.(first := Mul64(st.w.first, 9)))
  }

  function ChunkOffsets(p: nat): seq<nat> {
    [p, p + 8, p + 16, p + 24]
  }

  /** city.cc:472-479 on the four words of a chunk of 32 bytes. */
  function TailStep(st: State, t: seq<U64>): State
    requires |t| == 4
  {
    var y := Add64(Mul64(Rotate64(Add64(st.x, st.y), 42), K0), st.v.second);
    var w1 := Add64(st.w.first, t[2]);
    var x := Add64(Mul64(st.x, K0), w1);
    var z := Add64(st.z, Add64(st.w.second, t[0]));
    var v := WeakHash(t[0], t[1], t[2], t[3], Add64(st.v.first, z), st.v.second);
    State(x, y, z, v.(first := Mul64(v.first, K0)), Pair(w1, Add64(st.w.second, st.v.first)))
  }

  /** n chunks, from the end of s backwards. */
  function Tail(st: State, s: seq<Byte>, n: nat): State
    requires 32 * n <= |s|
  {
    if n == 0 then st else TailStep(Tail(st, s, n - 1), FetchAll(s, ChunkOffsets(|s| - 32 * n)))
  }

  function Finish128(st: State): Pair {
    var x := HashLen16(st.x, st.v.first);
    var y := HashLen16(Add64(st.y, st.z), st.w.first);
    Pair(Add64(HashLen16(Add64(x, st.v.second), st.w.second), y),
         HashLen16(Add64(x, st.w.second), Add64(y, st.v.second)))
  }

  /** Blocks of 64 bytes are taken in pairs: city.cc:444-464 leaves fewer than 128 bytes. */
  function PairedBlocks(n: nat): (blocks: nat)
    ensures 64 * blocks <= n < 64 * blocks + 128
  {
    n / 128 * 2
  }

  function Chunks(n: nat): (chunks: nat)
    requires n >= 128
    ensures 32 * chunks <= n
  {
    (n % 128 + 31) / 32
  }

  function CityHash128WithSeed(s: seq<Byte>, seed: Pair): Pair {
    if |s| < 128 then CityMurmur(s, seed)
    else Finish128(Tail(Turn(Blocks(SeedState(s, seed), s, PairedBlocks(|s|))), s, Chunks(|s|)))
  }

  function CityHash128(s: seq<Byte>): Pair {
    if |s| >= 16 then CityHash128WithSeed(s[16..], Pair(Fetch64(s, 0), Add64(Fetch64(s, 8), K0)))
    else CityHash128WithSeed(s, Pair(K0, K1))
  }

  // ----- The statements of CityHash128WithSeed -----

  lemma {:induction false} OneMoreBlock(st: State, s: seq<Byte>, n: nat)
    requires 64 * n + 64 <= |s|
    ensures Blocks(st, s, n + 1) == BlockStep(Blocks(st, s, n), FetchAll(s, BlockOffsets(64 * n)))
  {
    hide BlockStep, FetchAll;
  }

  lemma {:induction false} NoBlocks(st: State, s: seq<Byte>)
    ensures Blocks(st, s, 0) == st
  {
  }

  /** The unrolled loop: each pass is two block steps of CityHash64. The statements of
      city.cc:445-453 and of city.cc:454-462 are those of city.cc:371-378, each time at the advanced
      pointer. */
  method MixBlockPairs(input: Input, p: nat, st: State) returns (x: U64, y: U64, z: U64, v: Pair, w: Pair, at: nat)
    requires |input.bytes| - p >= 128
    modifies input`read
    ensures var s := input.bytes[p..];
            at == 64 * PairedBlocks(|s|) && State(x, y, z, v, w) == Blocks(st, s, PairedBlocks(|s|))
    ensures input.read == old(input.read) + Span(p, p + at)
  {
    hide Blocks, BlockStep, FetchAll;
    ghost var s := input.bytes[p..];
    x, y, z, v, w := st.x, st.y, st.z, st.v, st.w;
    NoBlocks(st, s);
    at := 0;
    var len := |input.bytes| - p;
    ghost var n := 0;
    while true
      invariant len >= 128 && at + len == |s| && at == 64 * n && n % 2 == 0
      invariant State(x, y, z, v, w) == Blocks(st, s, n)
      invariant input.read == old(input.read) + Span(p, p + at)
      decreases len
    {
      x, y, z, v, w := BlockBody(input, p, at, x, y, z, v, w);
      OneMoreBlock(st, s, n);
      at := at + 64;
      x, y, z, v, w := BlockBody(input, p, at, x, y, z, v, w);
      OneMoreBlock(st, s, n + 1);
      at := at + 64;
      n := n + 2;
      len := len - 128;
      if len < 128 { break; }
    }
  }

  lemma {:induction false} ChunkWords(s: seq<Byte>, i: nat)
    requires i + 32 <= |s|
    ensures FetchAll(s, ChunkOffsets(i)) == [Fetch64(s, i), Fetch64(s, i + 8), Fetch64(s, i + 16), Fetch64(s, i + 24)]
  {
    hide Fetch64;
  }

  lemma {:induction false} SpansChunk(q: nat)
    ensures Span(q + 16, q + 24) + Span(q, q + 8) + Span(q, q + 32) == Span(q, q + 32)
  {
  }

  /** city.cc:473-479, on the 32 bytes at s + i. */
  method TailBody(input: Input, p: nat, i: nat, x0: U64, y0: U64, z0: U64, v0: Pair, w0: Pair)
      returns (x: U64, y: U64, z: U64, v: Pair, w: Pair)
    requires p + i + 32 <= |input.bytes|
    modifies input`read
    ensures State(x, y, z, v, w) == TailStep(State(x0, y0, z0, v0, w0), FetchAll(input.bytes[p..], ChunkOffsets(i)))
    ensures input.read == old(input.read) + Span(p + i, p + i + 32)
  {
    hide Mul64, Add64, Rotate64, WeakHash, Fetch64, Span, FetchAll;
    x, y, z, v, w := x0, y0, z0, v0, w0;
    y := Add64(Mul64(Rotate64(Add64(x, y), 42), K0), v.second);
    var t := input.Load64(p, i + 16);
    w := w.(first := Add64(w.first, t));
    x := Add64(Mul64(x, K0), w.first);
    t := input.Load64(p, i);
    z := Add64(z, Add64(w.second, t));
    w := w.(second := Add64(w.second, v.first));
    v := WeakHashWithSeeds(input, p, i, Add64(v.first, z), v.second);
    v := v.(first := Mul64(v.first, K0));
    ChunkWords(input.bytes[p..], i);
    SpansChunk(p + i);
  }

  /** The tail loop: its chunks end at the end of the string, and the last may begin before `at`. */
  method MixTail(input: Input, p: nat, at: nat, st: State) returns (x: U64, y: U64, z: U64, v: Pair, w: Pair)
    requires |input.bytes| - p >= 128 && at == 64 * PairedBlocks(|input.bytes| - p)
    modifies input`read
    ensures var s := input.bytes[p..]; State(x, y, z, v, w) == Tail(st, s, Chunks(|s|))
    ensures input.read == old(input.read) + Span(|input.bytes| - 32 * Chunks(|input.bytes| - p), |input.bytes|)
  {
    hide TailStep, FetchAll;
    ghost var s := input.bytes[p..];
    x, y, z, v, w := st.x, st.y, st.z, st.v, st.w;
    var len, tailDone := |input.bytes| - p - at, 0;
    ghost var n := 0;
    while tailDone < len
      invariant tailDone == 32 * n && tailDone < len + 32
      invariant State(x, y, z, v, w) == Tail(st, s, n)
      invariant input.read == old(input.read) + Span(|input.bytes| - 32 * n, |input.bytes|)
    {
      tailDone, n := tailDone + 32, n + 1;
      x, y, z, v, w := TailBody(input, p, at + len - tailDone, x, y, z, v, w);
    }
  }

  /** city.cc:435-441. */
  method ComputeSeedState(input: Input, p: nat, seed: Pair) returns (x: U64, y: U64, z: U64, v: Pair, w: Pair)
    requires |input.bytes| - p >= 128
    modifies input`read
    ensures State(x, y, z, v, w) == SeedState(input.bytes[p..], seed)
    ensures input.read == old(input.read) + (Span(p, p + 16) + Span(p + 88, p + 96))
  {
    hide Mul64, Xor64, Add64, Rotate64, Fetch64;
    var len := |input.bytes| - p;
    x, y, z := seed.first, seed.second, Mul64(ToWord(len), K1);
    var t0 := input.Load64(p, 0);
    var v1 := Add64(Mul64(Rotate64(Xor64(y, K1), 49), K1), t0);
    var t1 := input.Load64(p, 8);
    var v2 := Add64(Mul64(Rotate64(v1, 42), K1), t1);
    v := Pair(v1, v2);
    var w1 := Add64(Mul64(Rotate64(Add64(y, z), 35), K1), x);
    var t2 := input.Load64(p, 88);
    var w2 := Mul64(Rotate64(Add64(x, t2), 53), K1);
    w := Pair(w1, w2);
    assert FetchAll(input.bytes[p..], SeedOffsets()) == [t0, t1, t2];
  }

  lemma {:induction false} SpansSeeded(p: nat, n: nat)
    requires n >= 128
    ensures Span(p, p + 16) + Span(p + 88, p + 96) + Span(p, p + 64 * PairedBlocks(n)) + Span(p + n - 32 * Chunks(n), p + n) == Span(p, p + n)
  {
  }

  /** city.cc:427-488. */
  method ComputeCityHash128WithSeed(input: Input, p: nat, seed: Pair) returns (hash: Pair)
    requires p <= |input.bytes|
    modifies input`read
    ensures hash == CityHash128WithSeed(input.bytes[p..], seed)
    ensures input.read == old(input.read) + Span(p, |input.bytes|)
  {
    hide CityMurmur, SeedState, Blocks, Tail, Mul64, Add64, Rotate64, HashLen16, Span, PairedBlocks, Chunks;
    var len := |input.bytes| - p;
    if len < 128 {
      hash := ComputeCityMurmur(input, p, seed);
      return;
    }
    var x, y, z, v, w := ComputeSeedState(input, p, seed);
    var at;
    x, y, z, v, w, at := MixBlockPairs(input, p, State(x, y, z, v, w));
    x := Add64(x, Mul64(Rotate64(Add64(v.first, z), 49), K0));
    y := Add64(Mul64(y, K0), Rotate64(w.second, 37));
    z := Add64(Mul64(z, K0), Rotate64(w.first, 27));
    w := w.(first := Mul64(w.first, 9));
    v := v.(first := Mul64(v.first, K0));
    x, y, z, v, w := MixTail(input, p, at, State(x, y, z, v, w));
    x := HashLen16(x, v.first);
    y := HashLen16(Add64(y, z), w.first);
    hash := Pair(Add64(HashLen16(Add64(x, v.second), w.second), y), HashLen16(Add64(x, w.second), Add64(y, v.second)));
    SpansSeeded(p, len);
  }

  /** city.cc:490-495: the first sixteen bytes are the seed of the rest. */
  method ComputeCityHash128(input: Input, p: nat) returns (hash: Pair)
    requires p <= |input.bytes|
    modifies input`read
    ensures hash == CityHash128(input.bytes[p..])
    ensures input.read == old(input.read) + Span(p, |input.bytes|)
  {
    hide CityHash128WithSeed, Fetch64, Add64;
    if |input.bytes| - p >= 16 {
      var a := input.Load64(p, 0);
      var b := input.Load64(p, 8);
      assert input.bytes[p..][16..] == input.bytes[p + 16..];
      hash := ComputeCityHash128WithSeed(input, p + 16, Pair(a, Add64(b, K0)));
    } else {
      hash := ComputeCityHash128WithSeed(input, p, Pair(K0, K1));
    }
  }
}
