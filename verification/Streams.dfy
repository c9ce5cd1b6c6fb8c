/** The framed stream: for every list of frames and every division of their bytes into reads,
    what the receiver gets (rpc/detail/rpc_channel.cc:71-97 over rpc/detail/rpc_data.cc:50-138). */
module Streams {
  import opened Words
  import opened Metadata
  import opened Frames

  // ----- Positions in a concatenation -----

  /** Where part k starts in Flatten(parts). */
  function Offset(parts: seq<seq<Byte>>, k: nat): nat
    requires k <= |parts|
  {
    if k == 0 then 0 else Offset(parts, k - 1) + |parts[k - 1]|
  }

  lemma {:induction false} OffsetMonotone(parts: seq<seq<Byte>>, i: nat, j: nat)
    requires i <= j <= |parts|
    ensures Offset(parts, i) <= Offset(parts, j)
  {
    if i < j { OffsetMonotone(parts, i, j - 1); }
  }

  lemma {:induction false} OffsetPrefix(parts: seq<seq<Byte>>, more: seq<seq<Byte>>, k: nat)
    requires k <= |parts|
    ensures Offset(parts + more, k) == Offset(parts, k)
  {
    if k > 0 { OffsetPrefix(parts, more, k - 1); }
  }

  lemma {:induction false} OffsetTotal(parts: seq<seq<Byte>>)
    ensures Offset(parts, |parts|) == |Flatten(parts)|
  {
    if parts != [] {
      var before, last := parts[..|parts| - 1], parts[|parts| - 1];
      assert parts == before + [last];
      OffsetTotal(before);
      FlattenSnoc(before, last);
      OffsetPrefix(before, [last], |before|);
    }
  }

  lemma {:induction false} PartAt(parts: seq<seq<Byte>>, k: nat)
    requires k < |parts|
    ensures Offset(parts, k + 1) <= |Flatten(parts)|
    ensures Flatten(parts)[Offset(parts, k)..Offset(parts, k + 1)] == parts[k]
  {
    var a, b := parts[..k], parts[k..];
    assert parts == a + b;
    FlattenAppend(a, b);
    OffsetTotal(a);
    OffsetPrefix(a, b, k);
  }

  /** How many whole frames, from the k-th on, lie in the first n bytes of the stream. */
  function Whole(fs: seq<seq<Byte>>, n: nat, k: nat): (w: nat)
    requires k <= |fs| && Offset(fs, k) <= n
    ensures k <= w <= |fs| && Offset(fs, w) <= n
    ensures w < |fs| ==> n < Offset(fs, w + 1)
    decreases |fs| - k
  {
    if k < |fs| && Offset(fs, k + 1) <= n then Whole(fs, n, k + 1) else k
  }

  lemma {:induction false} WholeIs(fs: seq<seq<Byte>>, n: nat, j: nat)
    requires j <= |fs| && Offset(fs, j) <= n && (j < |fs| ==> n < Offset(fs, j + 1))
    ensures Whole(fs, n, 0) == j
  {
    var w := Whole(fs, n, 0);
    if w < j { OffsetMonotone(fs, w + 1, j); }
    if j < w { OffsetMonotone(fs, j + 1, w); }
  }

  // ----- One read -----

  /** Exactly one frame: its metadata parses and its payload is all there. */
  predicate IsFrame(f: seq<Byte>) {
    MetaArrived(f) && MetaSize(f) > 0 && MetaOf(f).ok && |f| == FrameSize(f)
  }

  predicate AllFrames(fs: seq<seq<Byte>>) {
    forall i | 0 <= i < |fs| :: IsFrame(fs[i])
  }

  /** The bytes of the stream from a to b. */
  function Slice(fs: seq<seq<Byte>>, a: nat, b: nat): seq<Byte>
    requires a <= b <= |Flatten(fs)|
  {
    Flatten(fs)[a..b]
  }

  /** What the receiver should have after n bytes of the stream: the frames that lie wholly in
      them, in order, and the unfinished rest. */
  function Expected(fs: seq<seq<Byte>>, n: nat): Reading
    requires n <= |Flatten(fs)|
  {
    var k := Whole(fs, n, 0);
    Reading(true, fs[..k], [], Slice(fs, Offset(fs, k), n))
  }

  /** Every prefix of a frame is what a decoder may hold, and only the whole is complete. */
  lemma {:induction false} FramePrefix(f: seq<Byte>, n: nat)
    requires IsFrame(f) && n <= |f|
    ensures Held(f[..n]) && (Complete(f[..n]) <==> n == |f|)
    ensures MetaArrived(f[..n]) <==> n >= 4 + MetaSize(f)
  {
    PrefixAgrees(f, n);
    if n == |f| { assert f[..n] == f; }
  }

  /** One step: what the decoder takes when its bytes and the read are the start of a frame. */
  lemma {:induction false} TakeFromStream(version: Version, seen: seq<Byte>, bs: seq<Byte>, f: seq<Byte>)
    requires IsFrame(f) && bs != [] && |seen| < |f|
    requires seen + bs <= f || f <= seen + bs
    ensures Unfinished(seen)
    ensures CompletesCutMeta(seen, bs) <==> 4 < |seen| < 4 + MetaSize(f) <= |seen| + |bs|
    ensures version == Shipped && CompletesCutMeta(seen, bs) ==> Take(version, seen, bs) == Stop
    ensures version == Amended || !CompletesCutMeta(seen, bs) ==>
              Take(version, seen, bs) == Bytes(if |seen| + |bs| < |f| then |bs| else |f| - |seen|)
  {
    var all := seen + bs;
    assert seen == f[..|seen|] by { assert seen == all[..|seen|]; }
    FramePrefix(f, |seen|);
    if |all| < |f| {
      assert all == f[..|all|];
      FramePrefix(f, |all|);
    } else {
      assert all[..|f|] == f;
      PrefixAgrees(all, |f|);
    }
  }

  lemma {:induction false} NothingHeld(version: Version)
    ensures Unfinished([])
    ensures forall bs: seq<Byte> :: !CompletesCutMeta([], bs)
    ensures forall seen | Unfinished(seen) :: Read(version, seen, []) == Reading(true, [], [], seen)
  {
  }

  /** A read inside one frame only adds to what is held. */
  lemma {:induction false} ReadShort(version: Version, seen: seq<Byte>, bs: seq<Byte>, f: seq<Byte>)
    requires IsFrame(f) && bs != [] && |seen| + |bs| < |f| && seen + bs <= f
    requires version == Amended || !CompletesCutMeta(seen, bs)
    ensures Unfinished(seen) && Read(version, seen, bs) == Reading(true, [], [], seen + bs)
  {
    TakeFromStream(version, seen, bs, f);
    assert seen + bs[..|bs|] == f[..|seen| + |bs|];
    FramePrefix(f, |seen| + |bs|);
    assert bs[|bs|..] == [];
  }

  /** A read that reaches the end of the frame delivers it and goes on with the rest. */
  lemma {:induction false} ReadLong(version: Version, seen: seq<Byte>, bs: seq<Byte>, f: seq<Byte>)
    requires IsFrame(f) && |seen| < |f| <= |seen| + |bs| && f <= seen + bs
    requires version == Amended || !CompletesCutMeta(seen, bs)
    ensures Unfinished(seen)
    ensures var r := Read(version, [], bs[|f| - |seen|..]);
            Read(version, seen, bs) == r.(frames := [f] + r.frames)
  {
    TakeFromStream(version, seen, bs, f);
    assert seen + bs[..|f| - |seen|] == (seen + bs)[..|f|] == f;
  }

  lemma {:induction false} ReadCut(seen: seq<Byte>, bs: seq<Byte>, f: seq<Byte>)
    requires IsFrame(f) && |seen| < |f| && bs != [] && (seen + bs <= f || f <= seen + bs)
    requires CompletesCutMeta(seen, bs)
    ensures Unfinished(seen) && !Read(Shipped, seen, bs).alive
  {
    TakeFromStream(Shipped, seen, bs, f);
  }

  lemma {:induction false} Slices(s: seq<Byte>, a: nat, b: nat, c: nat)
    requires a <= b <= c <= |s|
    ensures s[a..b] + s[b..c] == s[a..c] && s[a..b] <= s[a..c]
    ensures s[a..c][..b - a] == s[a..b] && s[a..c][b - a..] == s[b..c]
  {
  }

  /** The position p is in frame k, whose bytes start at Offset(fs, k). */
  predicate InFrame(fs: seq<seq<Byte>>, k: nat, p: nat) {
    k <= |fs| && Offset(fs, k) <= p <= |Flatten(fs)| && (k < |fs| ==> p < Offset(fs, k + 1))
  }

  lemma {:induction false} FrameStart(fs: seq<seq<Byte>>, k: nat)
    requires AllFrames(fs) && k <= |fs|
    ensures InFrame(fs, k, Offset(fs, k)) && Slice(fs, Offset(fs, k), Offset(fs, k)) == []
  {
    OffsetTotal(fs);
    OffsetMonotone(fs, k, |fs|);
    assert k < |fs| ==> IsFrame(fs[k]);
  }

  /** What the decoder holds there is unfinished. */
  lemma {:induction false} HeldInFrame(fs: seq<seq<Byte>>, k: nat, p: nat)
    requires AllFrames(fs) && InFrame(fs, k, p)
    ensures Unfinished(Slice(fs, Offset(fs, k), p))
  {
    hide Held, Complete, Flatten, IsFrame, Unfinished, ParseFromArray;
    NothingHeld(Shipped);
    OffsetTotal(fs);
    var a := Offset(fs, k);
    if k < |fs| {
      PartAt(fs, k);
      Slices(Flatten(fs), a, p, Offset(fs, k + 1));
      assert Slice(fs, a, p) == fs[k][..p - a];
      PrefixUnfinished(fs[k], p - a);
    } else {
      assert Slice(fs, a, p) == [];
    }
  }

  lemma {:induction false} PrefixUnfinished(f: seq<Byte>, n: nat)
    requires IsFrame(f) && n < |f|
    ensures Unfinished(f[..n])
  {
    hide Held, Complete, IsFrame;
    FramePrefix(f, n);
  }

  lemma {:induction false} ReadWithin(version: Version, fs: seq<seq<Byte>>, k: nat, p: nat, q: nat)
    requires AllFrames(fs) && InFrame(fs, k, p) && p <= q <= |Flatten(fs)|
    requires version == Amended || !CompletesCutMeta(Slice(fs, Offset(fs, k), p), Slice(fs, p, q))
    requires k < |fs| ==> q < Offset(fs, k + 1)
    ensures Unfinished(Slice(fs, Offset(fs, k), p))
    ensures Read(version, Slice(fs, Offset(fs, k), p), Slice(fs, p, q)) == Reading(true, [], [], Slice(fs, Offset(fs, k), q))
  {
    hide Read, Unfinished, CompletesCutMeta, Flatten;
    NothingHeld(version);
    HeldInFrame(fs, k, p);
    OffsetTotal(fs);
    if p < q {
      var s, a := Flatten(fs), Offset(fs, k);
      PartAt(fs, k);
      Slices(s, a, p, q);
      Slices(s, a, q, Offset(fs, k + 1));
      ReadShort(version, s[a..p], s[p..q], fs[k]);
    } else {
      assert Slice(fs, p, q) == [];
    }
  }

  lemma {:induction false} ReadBeyond(version: Version, fs: seq<seq<Byte>>, k: nat, p: nat, q: nat)
    requires AllFrames(fs) && InFrame(fs, k, p) && k < |fs| && Offset(fs, k + 1) <= q <= |Flatten(fs)|
    requires version == Amended || !CompletesCutMeta(Slice(fs, Offset(fs, k), p), Slice(fs, p, q))
    ensures Unfinished(Slice(fs, Offset(fs, k), p)) && Unfinished([])
    ensures var r := Read(version, [], Slice(fs, Offset(fs, k + 1), q));
            Read(version, Slice(fs, Offset(fs, k), p), Slice(fs, p, q)) == r.(frames := [fs[k]] + r.frames)
  {
    hide Read, Unfinished, CompletesCutMeta, Flatten;
    NothingHeld(version);
    HeldInFrame(fs, k, p);
    var s, a, b := Flatten(fs), Offset(fs, k), Offset(fs, k + 1);
    PartAt(fs, k);
    Slices(s, a, p, q);
    Slices(s, a, b, q);
    Slices(s, p, b, q);
    ReadLong(version, s[a..p], s[p..q], fs[k]);
  }

  /** One read over a well-formed stream: the decoder holds the start of frame k, up to p, and the
      read brings the bytes from p to q. */
  lemma {:induction false} ReadFromStream(version: Version, fs: seq<seq<Byte>>, k: nat, p: nat, q: nat)
    requires AllFrames(fs) && InFrame(fs, k, p) && p <= q <= |Flatten(fs)|
    requires version == Amended || !CompletesCutMeta(Slice(fs, Offset(fs, k), p), Slice(fs, p, q))
    ensures Unfinished(Slice(fs, Offset(fs, k), p))
    ensures var w := Whole(fs, q, k);
            Read(version, Slice(fs, Offset(fs, k), p), Slice(fs, p, q))
              == Reading(true, fs[k..w], [], Slice(fs, Offset(fs, w), q))
    decreases |fs| - k
  {
    hide Read, Unfinished, CompletesCutMeta, Flatten, Slice, IsFrame, Whole, Offset;
    var w := Whole(fs, q, k);
    WholeNext(fs, q, k);
    if w == k {
      ReadWithin(version, fs, k, p, q);
      assert fs[k..w] == [];
    } else {
      var b := Offset(fs, k + 1);
      ReadBeyond(version, fs, k, p, q);
      FrameStart(fs, k + 1);
      NothingHeld(version);
      ReadFromStream(version, fs, k + 1, b, q);
      assert fs[k..w] == [fs[k]] + fs[k + 1..w];
    }
  }

  lemma {:induction false} WholeNext(fs: seq<seq<Byte>>, n: nat, k: nat)
    requires k <= |fs| && Offset(fs, k) <= n
    ensures Whole(fs, n, k) != k ==> k < |fs| && Offset(fs, k + 1) <= n && Whole(fs, n, k) == Whole(fs, n, k + 1)
  {
  }

  /** A read that completes metadata cut by an earlier boundary stops the shipped decoder. */
  lemma {:induction false} CutReadStops(fs: seq<seq<Byte>>, k: nat, p: nat, q: nat)
    requires AllFrames(fs) && InFrame(fs, k, p) && p <= q <= |Flatten(fs)|
    requires CompletesCutMeta(Slice(fs, Offset(fs, k), p), Slice(fs, p, q))
    ensures Unfinished(Slice(fs, Offset(fs, k), p))
    ensures !Read(Shipped, Slice(fs, Offset(fs, k), p), Slice(fs, p, q)).alive
  {
    OffsetTotal(fs);
    var s, a := Flatten(fs), Offset(fs, k);
    Slices(s, a, p, q);
    assert p < q;
    PartAt(fs, k);
    StartsAlike(s, a, Offset(fs, k + 1), q);
    ReadCut(s[a..p], s[p..q], fs[k]);
  }

  lemma {:induction false} StartsAlike(s: seq<Byte>, a: nat, b: nat, q: nat)
    requires a <= b <= |s| && a <= q <= |s|
    ensures s[a..q] <= s[a..b] || s[a..b] <= s[a..q]
  {
    if q <= b { Slices(s, a, q, b); } else { Slices(s, a, b, q); }
  }

  // ----- Divisions of the stream into reads -----

  function MetaStart(fs: seq<seq<Byte>>, j: nat): nat
    requires j < |fs|
  {
    Offset(fs, j) + 4
  }

  function MetaEnd(fs: seq<seq<Byte>>, j: nat): nat
    requires j < |fs| && |fs[j]| >= 4
  {
    MetaStart(fs, j) + MetaSize(fs[j])
  }

  /** Offset c lies strictly inside the metadata of some frame, and that metadata ends by `end`. */
  ghost predicate CutsMeta(fs: seq<seq<Byte>>, c: nat, end: nat)
    requires AllFrames(fs)
  {
    exists j: nat | j < |fs| :: MetaStart(fs, j) < c < MetaEnd(fs, j) <= end
  }

  /** No boundary between two reads cuts metadata that the reads complete. */
  ghost predicate CleanCuts(fs: seq<seq<Byte>>, chunks: seq<seq<Byte>>)
    requires AllFrames(fs)
  {
    forall i | 0 < i < |chunks| :: !CutsMeta(fs, Offset(chunks, i), Offset(chunks, |chunks|))
  }

  lemma {:induction false} CleanCutsSnoc(fs: seq<seq<Byte>>, before: seq<seq<Byte>>, last: seq<Byte>)
    requires AllFrames(fs)
    ensures CleanCuts(fs, before + [last]) <==>
              && CleanCuts(fs, before)
              && !CutsMeta(fs, |Flatten(before)|, |Flatten(before)| + |last|)
  {
    hide IsFrame, CutsMeta, Flatten;
    var chunks, n := before + [last], |before|;
    OffsetTotal(before);
    forall i | 0 <= i <= n ensures Offset(chunks, i) == Offset(before, i) <= Offset(before, n) {
      OffsetPrefix(before, [last], i);
      OffsetMonotone(before, i, n);
    }
    var c, end := Offset(before, n), Offset(chunks, n + 1);
    forall i | 0 < i < n ensures CutsMeta(fs, Offset(before, i), end) ==>
                                   CutsMeta(fs, Offset(before, i), c) || CutsMeta(fs, c, end) {
      CutMovesUp(fs, Offset(before, i), c, end);
    }
    NoCutAtStart(fs, end);
    assert CleanCuts(fs, chunks) ==> n > 0 ==> !CutsMeta(fs, Offset(chunks, n), end);
    forall i | 0 < i < n && CutsMeta(fs, Offset(before, i), c) ensures CutsMeta(fs, Offset(chunks, i), end) {
      CutStays(fs, Offset(before, i), c, end);
    }
  }

  lemma {:induction false} NoCutAtStart(fs: seq<seq<Byte>>, end: nat)
    requires AllFrames(fs)
    ensures !CutsMeta(fs, 0, end)
  {
    hide IsFrame;
  }

  lemma {:induction false} CutStays(fs: seq<seq<Byte>>, c: nat, d: nat, end: nat)
    requires AllFrames(fs) && d <= end && CutsMeta(fs, c, d)
    ensures CutsMeta(fs, c, end)
  {
    hide ParseFromArray, FromBigEndian;
  }

  lemma {:induction false} CutMovesUp(fs: seq<seq<Byte>>, c: nat, d: nat, end: nat)
    requires AllFrames(fs) && c <= d <= end
    ensures CutsMeta(fs, c, end) ==> CutsMeta(fs, c, d) || CutsMeta(fs, d, end)
  {
    if CutsMeta(fs, c, end) {
      var j: nat :| j < |fs| && MetaStart(fs, j) < c < MetaEnd(fs, j) <= end;
      if d < MetaEnd(fs, j) { assert MetaStart(fs, j) < d < MetaEnd(fs, j) <= end; }
    }
  }

  /** The decoder meets cut metadata exactly when the boundary lies inside metadata. */
  lemma {:induction false} CutSeenByDecoder(fs: seq<seq<Byte>>, p: nat, q: nat)
    requires AllFrames(fs) && p <= q <= |Flatten(fs)|
    ensures CompletesCutMeta(Expected(fs, p).tail, Slice(fs, p, q)) <==> CutsMeta(fs, p, q)
  {
    hide Take, Held, Complete, FromBigEndian, ParseFromArray, Flatten;
    var s, k := Flatten(fs), Whole(fs, p, 0);
    var a := Offset(fs, k);
    OffsetTotal(fs);
    forall j: nat | j < |fs| && MetaStart(fs, j) < p < MetaEnd(fs, j) ensures j == k {
      WholeIs(fs, p, j);
    }
    if k < |fs| && p < q {
      PartAt(fs, k);
      var f, b := fs[k], Offset(fs, k + 1);
      Slices(s, a, p, q);
      StartsAlike(s, a, b, q);
      TakeFromStream(Shipped, s[a..p], s[p..q], f);
      assert MetaStart(fs, k) < p < MetaEnd(fs, k) <= q <==> 4 < p - a < 4 + MetaSize(f) <= q - a;
    } else {
      assert s[p..q] == [] && s[a..p] + s[p..q] == s[a..p];
    }
  }

  /** The stream theorem. For every list of frames and every division into reads of any prefix of
      their bytes, the shipped decoder survives exactly when no boundary cuts metadata, the amended
      one always; and then exactly the whole frames arrive, in order, and partial_message_ holds
      exactly the unfinished rest. */
  lemma {:induction false} DivisionTheorem(version: Version, fs: seq<seq<Byte>>, chunks: seq<seq<Byte>>)
    requires AllFrames(fs) && Flatten(chunks) <= Flatten(fs)
    ensures ReadAll(version, chunks).alive <==> version == Amended || CleanCuts(fs, chunks)
    ensures ReadAll(version, chunks).alive ==> ReadAll(version, chunks) == Expected(fs, |Flatten(chunks)|)
    decreases |chunks|
  {
    hide ReadAll, CleanCuts, IsFrame, Whole;
    if chunks == [] {
      NoReads(version, fs);
    } else {
      var before, last := chunks[..|chunks| - 1], chunks[|chunks| - 1];
      assert chunks == before + [last];
      FlattenSnoc(before, last);
      var p, q := |Flatten(before)|, |Flatten(chunks)|;
      assert Flatten(before) <= Flatten(fs) && last == Slice(fs, p, q) by { SliceOfPrefix(fs, before, last); }
      DivisionTheorem(version, fs, before);
      CleanCutsSnoc(fs, before, last);
      DivisionStep(version, fs, chunks, p, q);
    }
  }

  lemma {:induction false} NoReads(version: Version, fs: seq<seq<Byte>>)
    requires AllFrames(fs)
    ensures ReadAll(version, []).alive && CleanCuts(fs, []) && ReadAll(version, []) == Expected(fs, 0)
  {
    hide ParseFromArray, FromBigEndian;
    WholeIs(fs, 0, 0);
  }

  lemma {:induction false} SliceOfPrefix(fs: seq<seq<Byte>>, before: seq<seq<Byte>>, last: seq<Byte>)
    requires Flatten(before) + last <= Flatten(fs)
    ensures Flatten(before) <= Flatten(fs)
    ensures Slice(fs, |Flatten(before)|, |Flatten(before)| + |last|) == last
  {
    assert Flatten(before) == (Flatten(before) + last)[..|Flatten(before)|];
    assert last == (Flatten(before) + last)[|Flatten(before)|..];
  }

  lemma {:induction false} DivisionStep(version: Version, fs: seq<seq<Byte>>, chunks: seq<seq<Byte>>, p: nat, q: nat)
    requires AllFrames(fs) && chunks != [] && p <= q <= |Flatten(fs)|
    requires chunks[|chunks| - 1] == Slice(fs, p, q)
    requires var b := ReadAll(version, chunks[..|chunks| - 1]); b.alive ==> b == Expected(fs, p)
    ensures var b, r := ReadAll(version, chunks[..|chunks| - 1]), ReadAll(version, chunks);
            && (r.alive <==> b.alive && (version == Amended || !CutsMeta(fs, p, q)))
            && (r.alive ==> r == Expected(fs, q))
  {
    hide Read, Unfinished, CompletesCutMeta, CutsMeta, Whole, Offset, Flatten, IsFrame;
    CutSeenByDecoder(fs, p, q);
    NextRead(version, fs, p, q);
  }

  /** One more read after the first p bytes. */
  lemma {:induction false} NextRead(version: Version, fs: seq<seq<Byte>>, p: nat, q: nat)
    requires AllFrames(fs) && p <= q <= |Flatten(fs)|
    ensures Unfinished(Expected(fs, p).tail)
    ensures var e, bs := Expected(fs, p), Slice(fs, p, q);
            var r := Read(version, e.tail, bs);
            if version == Shipped && CompletesCutMeta(e.tail, bs) then !r.alive
            else Expected(fs, q) == r.(frames := e.frames + r.frames)
  {
    hide Read, Unfinished, CompletesCutMeta, Flatten, IsFrame;
    var k := Whole(fs, p, 0);
    if version == Shipped && CompletesCutMeta(Expected(fs, p).tail, Slice(fs, p, q)) {
      CutReadStops(fs, k, p, q);
    } else {
      ReadFromStream(version, fs, k, p, q);
      WholeIs(fs, q, Whole(fs, q, k));
      assert fs[..k] + fs[k..Whole(fs, q, k)] == fs[..Whole(fs, q, k)];
    }
  }

  // ----- Messages -----

  predicate AllValid(ms: seq<Message>) {
    forall i | 0 <= i < |ms| :: ValidMessage(ms[i])
  }

  function FrameList(ms: seq<Message>): (fs: seq<seq<Byte>>)
    ensures |fs| == |ms| && forall i | 0 <= i < |ms| :: fs[i] == Frame(ms[i])
  {
    seq(|ms|, i requires 0 <= i < |ms| => Frame(ms[i]))
  }

  function Messages(fs: seq<seq<Byte>>): (ms: seq<Message>)
    requires AllFrames(fs)
    ensures |ms| == |fs| && forall i | 0 <= i < |fs| :: ms[i] == MessageOf(fs[i])
  {
    seq(|fs|, i requires 0 <= i < |fs| => MessageOf(fs[i]))
  }

  /** The frame round trip: what ToBuffer writes is one frame and carries the message. */
  lemma {:induction false} FrameRoundTrip(m: Message)
    requires ValidMessage(m)
    ensures IsFrame(Frame(m)) && MessageOf(Frame(m)) == m && MetaSize(Frame(m)) == ByteSize(m.meta)
  {
    hide Serialize, ByteSize, ParseFromArray;
    var f, n := Frame(m), ByteSize(m.meta);
    ByteSizeZero(m.meta);
    SerializedLength(m.meta);
    MetadataRoundTrip(m.meta);
    assert f[..4] == BigEndian(n) && FromBigEndian(f) == FromBigEndian(f[..4]);
    assert f[4..4 + n] == Serialize(m.meta);
    assert f[4 + n..] == m.payload;
  }

  lemma {:induction false} FramesRoundTrip(ms: seq<Message>)
    requires AllValid(ms)
    ensures AllFrames(FrameList(ms)) && Messages(FrameList(ms)) == ms
  {
    forall i | 0 <= i < |ms| ensures IsFrame(FrameList(ms)[i]) && MessageOf(FrameList(ms)[i]) == ms[i] {
      FrameRoundTrip(ms[i]);
    }
  }

  /** For every list of messages and every division of all their bytes into reads: a process that
      survives hands over exactly those messages, in order, and holds nothing; the amended decoder
      always survives, the shipped one exactly when no boundary is strictly inside metadata. */
  lemma {:induction false} MessagesArrive(version: Version, ms: seq<Message>, chunks: seq<seq<Byte>>)
    requires AllValid(ms) && Flatten(chunks) == Flatten(FrameList(ms))
    ensures AllFrames(FrameList(ms))
    ensures var r := ReadAll(version, chunks);
            && (r.alive <==> version == Amended || CleanCuts(FrameList(ms), chunks))
            && (r.alive ==> AllFrames(r.frames) && Messages(r.frames) == ms && r.dropped == [] && r.tail == [])
  {
    hide Frame, MessageOf, Whole, CleanCuts, ReadAll;
    var fs := FrameList(ms);
    FramesRoundTrip(ms);
    DivisionTheorem(version, fs, chunks);
    OffsetTotal(fs);
    WholeIs(fs, |Flatten(fs)|, |fs|);
    assert fs[..|fs|] == fs;
  }

  /** The failing family, explicitly: cut any frame strictly inside its metadata and the shipped
      decoder stops on the second read, while the amended one delivers the message. */
  lemma {:induction false} EveryMetadataCutStops(m: Message, c: nat)
    requires ValidMessage(m) && 4 < c < 4 + ByteSize(m.meta)
    ensures var f := Frame(m);
            && !ReadAll(Shipped, [f[..c], f[c..]]).alive
            && ReadAll(Amended, [f[..c], f[c..]]) == Reading(true, [f], [], [])
  {
    var f := Frame(m);
    var fs, chunks := [f], [f[..c], f[c..]];
    FrameRoundTrip(m);
    hide Frame, Whole, ReadAll, Serialize, ByteSize, Flatten, Offset, FromBigEndian, ParseFromArray;
    TwoReads(f, c);
    assert fs[0] == f && MetaStart(fs, 0) < c < MetaEnd(fs, 0) <= |f|;
    assert CutsMeta(fs, Offset(chunks, 1), Offset(chunks, |chunks|));
    DivisionTheorem(Shipped, fs, chunks);
    DivisionTheorem(Amended, fs, chunks);
    WholeIs(fs, |f|, 1);
    assert fs[..1] == fs;
  }

  lemma {:induction false} TwoReads(f: seq<Byte>, c: nat)
    requires c <= |f|
    ensures Flatten([f]) == f && Offset([f], 0) == 0 && Offset([f], 1) == |f|
    ensures Flatten([f[..c], f[c..]]) == f && Offset([f[..c], f[c..]], 1) == c && Offset([f[..c], f[c..]], 2) == |f|
  {
    var fs, chunks := [f], [f[..c], f[c..]];
    assert Flatten(fs) == f + Flatten(fs[1..]) && Flatten(fs[1..]) == [];
    assert chunks[1..] == [f[c..]] && Flatten(chunks[1..]) == f[c..] + Flatten(chunks[1..][1..]);
    assert Flatten(chunks) == f[..c] + f[c..] == f;
    assert Offset(chunks, 1) == Offset(chunks, 0) + |chunks[0]| && Offset(chunks, 2) == Offset(chunks, 1) + |chunks[1]|;
    assert Offset(fs, 1) == Offset(fs, 0) + |fs[0]|;
  }
}
