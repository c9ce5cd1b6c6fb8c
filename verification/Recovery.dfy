/** When bytes of an earlier message are in the way: what partial_message_ keeps across
    RebuildSocket (rpc/detail/rpc_channel.h:73-77), and what the read loop does after metadata that
    does not parse (rpc/detail/rpc_channel.cc:79-84). */
module Recovery {
  import opened Words
  import opened Metadata
  import opened Frames
  import opened Streams

  // ----- Reads in sequence, from what is held -----

  function ReadFrom(version: Version, seen: seq<Byte>, chunks: seq<seq<Byte>>): (r: Reading)
    requires Unfinished(seen)
    ensures r.alive ==> Unfinished(r.tail)
    decreases |chunks|
  {
    if chunks == [] then Reading(true, [], [], seen)
    else
      var r := Read(version, seen, chunks[0]);
      if !r.alive then r
      else
        var q := ReadFrom(version, r.tail, chunks[1..]);
        Reading(q.alive, r.frames + q.frames, r.dropped + q.dropped, q.tail)
  }

  lemma {:induction false} ReadFromSnoc(version: Version, seen: seq<Byte>, chunks: seq<seq<Byte>>, last: seq<Byte>)
    requires Unfinished(seen)
    ensures var b := ReadFrom(version, seen, chunks);
            ReadFrom(version, seen, chunks + [last]) ==
            if !b.alive then b
            else
              var r := Read(version, b.tail, last);
              Reading(r.alive, b.frames + r.frames, b.dropped + r.dropped, r.tail)
    decreases |chunks|
  {
    hide Read, Unfinished;
    if chunks == [] {
      assert [last][1..] == [];
    } else {
      assert (chunks + [last])[1..] == chunks[1..] + [last];
      var r := Read(version, seen, chunks[0]);
      if r.alive { ReadFromSnoc(version, r.tail, chunks[1..], last); }
    }
  }

  /** With nothing held, these are the reads of a new connection. */
  lemma {:induction false} ReadFromNothing(version: Version, chunks: seq<seq<Byte>>)
    ensures Unfinished([]) && ReadFrom(version, [], chunks) == ReadAll(version, chunks)
    decreases |chunks|
  {
    NothingHeld(version);
    hide Read, Unfinished, ReadFrom;
    if chunks == [] {
      NoReadsFrom(version);
    } else {
      var n := |chunks| - 1;
      ReadFromNothing(version, chunks[..n]);
      ReadFromSnoc(version, [], chunks[..n], chunks[n]);
      assert chunks[..n] + [chunks[n]] == chunks;
    }
  }

  lemma {:induction false} NoReadsFrom(version: Version)
    requires Unfinished([])
    ensures ReadFrom(version, [], []) == ReadAll(version, [])
  {
  }

  // ----- Streams that come out as sent -----

  /** All bytes of the frames, in reads that cut no metadata (any reads, for the amended decoder). */
  ghost predicate Clean(version: Version, fs: seq<seq<Byte>>, chunks: seq<seq<Byte>>) {
    AllFrames(fs) && Flatten(chunks) == Flatten(fs) && (version == Amended || CleanCuts(fs, chunks))
  }

  /** The receiver gets exactly these frames. */
  predicate Delivers(version: Version, seen: seq<Byte>, chunks: seq<seq<Byte>>, fs: seq<seq<Byte>>)
    requires Unfinished(seen)
  {
    ReadFrom(version, seen, chunks).alive && ReadFrom(version, seen, chunks).frames == fs
  }

  lemma {:induction false} CleanDelivers(version: Version, fs: seq<seq<Byte>>, chunks: seq<seq<Byte>>)
    requires Clean(version, fs, chunks)
    ensures Unfinished([]) && Delivers(version, [], chunks, fs)
  {
    hide ReadFrom, ReadAll, IsFrame, Flatten;
    ReadFromNothing(version, chunks);
    assert Flatten(chunks) <= Flatten(fs);
    DivisionTheorem(version, fs, chunks);
    OffsetTotal(fs);
    WholeIs(fs, |Flatten(fs)|, |fs|);
    assert fs[..|fs|] == fs;
  }

  // ----- A frame that cannot follow other bytes unnoticed -----

  function Probe(b: Byte): Message {
    Message(RPCMetaData(Some(1), Some(1), Some(1), Some(1)), [b])
  }

  function ProbeBytes(b: Byte): seq<Byte> {
    [0, 0, 0, 8, 8, 1, 16, 1, 24, 1, 32, 1, b]
  }

  lemma {:induction false} ProbeIs(b: Byte)
    ensures ValidMessage(Probe(b)) && Frame(Probe(b)) == ProbeBytes(b)
  {
    hide Serialize, BigEndian, ByteSize;
    SmallMeta(1, 1, 1, 1);
    EightBytes();
  }

  /** No bytes in front of a probe leave it in place: some probe h is not a prefix of x + h. */
  lemma {:induction false} ProbeMoves(x: seq<Byte>) returns (b: Byte)
    requires x != []
    ensures !(ProbeBytes(b) <= x + ProbeBytes(b))
  {
    b := if |x| > 12 && x[12] == 1 then 2 else 1;
    var h := ProbeBytes(b);
    var p, y := |x|, x + h;
    if p > 12 {
      assert y[12] == x[12] != h[12];
    } else if p >= 3 {
      assert y[p] == h[0] != h[p];
    } else {
      assert y[3] == h[3 - p] != h[3];
    }
  }

  /** A probe after other bytes does not come out as sent. */
  lemma {:induction false} ProbeLost(version: Version, seen: seq<Byte>, bs: seq<Byte>, b: Byte)
    requires Unfinished(seen) && !(ProbeBytes(b) <= seen + bs)
    ensures Read(version, seen, bs).alive ==> Read(version, seen, bs).frames != [ProbeBytes(b)]
  {
    hide Read, Unfinished, ProbeBytes, Flatten;
    var r, h := Read(version, seen, bs), ProbeBytes(b);
    FlattenOne(h);
    if r.alive {
      ReadConserves(version, seen, bs);
      assert Flatten(r.frames) <= seen + bs;
    }
  }

  lemma {:induction false} FlattenOne(f: seq<Byte>)
    ensures Flatten([f]) == f
  {
    assert Flatten([f]) == f + Flatten([]);
  }

  lemma {:induction false} ProbeIsClean(version: Version, b: Byte)
    ensures Clean(version, [ProbeBytes(b)], [ProbeBytes(b)])
  {
    hide Frame, IsFrame, ProbeBytes, Clean, Probe;
    ProbeIs(b);
    FrameRoundTrip(Probe(b));
    OneReadIsClean(version, ProbeBytes(b));
  }

  // ----- RebuildSocket -----

  /** partial_message_ is kept across a reconnect. Whatever frames the new connection carries, and
      however they are read, the receiver gets exactly those frames: this holds if and only if
      nothing was held. */
  lemma {:induction false} StaleTailTheorem(version: Version, stale: seq<Byte>)
    requires Unfinished(stale)
    ensures (forall fs, chunks | Clean(version, fs, chunks) :: Delivers(version, stale, chunks, fs)) <==> stale == []
  {
    hide ReadFrom, Clean;
    if stale == [] {
      forall fs, chunks | Clean(version, fs, chunks) ensures Delivers(version, stale, chunks, fs) {
        CleanDelivers(version, fs, chunks);
      }
    } else {
      var b := ProbeMoves(stale);
      var h := ProbeBytes(b);
      ProbeIsClean(version, b);
      ProbeLost(version, stale, h, b);
      OneRead(version, stale, h);
      assert !Delivers(version, stale, [h], [h]);
    }
  }

  /** A message whose payload repeats the start of its own frame. */
  function Echo(): Message {
    Message(RPCMetaData(Some(0), Some(0), Some(0), Some(12)), EchoStart())
  }

  function EchoStart(): seq<Byte> {
    [0, 0, 0, 8, 8, 0, 16, 0, 24, 0, 32, 12]
  }

  lemma {:induction false} EchoIs()
    ensures ValidMessage(Echo()) && Frame(Echo()) == EchoStart() + EchoStart()
  {
    hide Serialize, BigEndian, ByteSize;
    SmallMeta(0, 0, 0, 12);
    EightBytes();
  }

  lemma {:induction false} EightBytes()
    ensures BigEndian(8) == [0, 0, 0, 8]
  {
  }

  lemma {:induction false} SmallMeta(a: nat, b: nat, c: nat, d: nat)
    requires a < 128 && b < 128 && c < 128 && d < 128
    ensures var m := RPCMetaData(Some(a), Some(b), Some(c), Some(d));
            Serialize(m) == [8, a, 16, b, 24, c, 32, d] && ByteSize(m) == 8
  {
    var m := RPCMetaData(Some(a), Some(b), Some(c), Some(d));
    var f1, f2, f3, f4 := Seq(a), ServiceId(b), MethodId(c), Length(d);
    assert Fields(m) == [f1, f2, f3, f4];
    assert EncodeFields([f4]) == EncodeField(f4) + EncodeFields([]);
    assert [f3, f4][1..] == [f4] && [f2, f3, f4][1..] == [f3, f4] && [f1, f2, f3, f4][1..] == [f2, f3, f4];
    assert EncodeField(f1) == [8, a] && EncodeField(f2) == [16, b] && EncodeField(f3) == [24, c] && EncodeField(f4) == [32, d];
    assert EncodeFields([f3, f4]) == [24, c, 32, d];
    assert EncodeFields([f2, f3, f4]) == [16, b, 24, c, 32, d];
    assert Serialize(m) == EncodeFields([f1, f2, f3, f4]) == [8, a, 16, b, 24, c, 32, d];
  }

  /** The condition is about all streams: for some held bytes there is a stream that comes out as sent. */
  lemma {:induction false} StaleMayPass(version: Version) returns (stale: seq<Byte>, f: seq<Byte>)
    ensures stale != [] && Unfinished(stale)
    ensures Clean(version, [f], [f]) && Delivers(version, stale, [f], [f])
  {
    hide Frame, IsFrame, Clean, Delivers, Unfinished, FromBigEndian;
    stale, f := EchoStart(), Frame(Echo());
    EchoFacts();
    OneReadIsClean(version, f);
    Passes(version, stale, f);
  }

  lemma {:induction false} Passes(version: Version, h: seq<Byte>, f: seq<Byte>)
    requires IsFrame(f) && f == h + h && |h| == 12 && h == f[..12] && MetaSize(f) == 8
    ensures Unfinished(h) && Delivers(version, h, [f], [f])
  {
    hide IsFrame, Read, Unfinished, ReadFrom, FromBigEndian;
    PrefixUnfinished(f, 12);
    assert h + f == f + h && f[12..] == h;
    OneRead(version, h, f);
    MetaOfEcho(version, h, f);
    NoCutFirst(version, h, f);
  }

  lemma {:induction false} NoCutFirst(version: Version, h: seq<Byte>, f: seq<Byte>)
    requires IsFrame(f) && h != [] && |h| < |f| && h <= f
    ensures Unfinished([]) && Read(version, [], h) == Reading(true, [], [], h)
  {
    hide IsFrame, Read, Unfinished, CompletesCutMeta;
    NothingHeld(version);
    assert [] + h == h;
    ReadShort(version, [], h, f);
  }

  lemma {:induction false} EchoFacts()
    ensures var h, f := EchoStart(), Frame(Echo());
            IsFrame(f) && f == h + h && |h| == 12 && h == f[..12] && MetaSize(f) == 8
  {
    EchoIs();
    FrameRoundTrip(Echo());
    hide Frame, IsFrame;
  }

  lemma {:induction false} OneReadIsClean(version: Version, f: seq<Byte>)
    requires IsFrame(f)
    ensures Clean(version, [f], [f])
  {
    hide IsFrame;
  }

  lemma {:induction false} MetaOfEcho(version: Version, h: seq<Byte>, f: seq<Byte>)
    requires IsFrame(f) && 12 == |h| < |f| && h == f[..12] && MetaSize(f) == 8 && f <= h + f
    ensures Unfinished(h) && Unfinished([])
    ensures var r := Read(version, [], f[|f| - 12..]); Read(version, h, f) == r.(frames := [f] + r.frames)
  {
    hide Read, Unfinished, IsFrame, ParseFromArray;
    NothingHeld(version);
    FramePrefix(f, 12);
    ReadLong(version, h, f, f);
  }

  lemma {:induction false} OneRead(version: Version, seen: seq<Byte>, bs: seq<Byte>)
    requires Unfinished(seen)
    ensures var r := Read(version, seen, bs);
            ReadFrom(version, seen, [bs]).alive == r.alive && ReadFrom(version, seen, [bs]).frames == r.frames
  {
    hide Read, Unfinished;
    assert [bs][1..] == [];
  }

  // ----- Metadata that does not parse -----

  /** All the metadata is there and it is none. */
  predicate Unparsable(f: seq<Byte>) {
    MetaArrived(f) && MetaSize(f) > 0 && !MetaOf(f).ok
  }

  /** A read drops bytes exactly when what follows the frames it delivered starts with metadata that
      does not parse; it then drops all the rest of the read, and otherwise keeps it. */
  lemma {:induction false} DropTheorem(version: Version, seen: seq<Byte>, bs: seq<Byte>)
    requires Unfinished(seen) && Read(version, seen, bs).alive
    ensures var r := Read(version, seen, bs);
            && |Flatten(r.frames)| <= |seen + bs|
            && var rest := (seen + bs)[|Flatten(r.frames)|..];
            && (r.dropped != [] <==> Unparsable(rest))
            && (if r.dropped != [] then r.dropped == rest && r.tail == [] else r.tail == rest)
    decreases |bs|
  {
    hide Read, Unfinished, Unparsable, Flatten;
    ReadConserves(version, seen, bs);
    var r := Read(version, seen, bs);
    DropCases(version, seen, bs);
    assert (seen + bs)[|Flatten(r.frames)|..] == r.dropped + r.tail;
    assert r.dropped + [] == r.dropped && [] + r.tail == r.tail;
  }

  lemma {:induction false} DropCases(version: Version, seen: seq<Byte>, bs: seq<Byte>)
    requires Unfinished(seen) && Read(version, seen, bs).alive
    ensures var r := Read(version, seen, bs);
            if r.dropped != [] then Unparsable(r.dropped) && r.tail == [] else !Unparsable(r.tail)
    decreases |bs|
  {
    hide MetaOf, FromBigEndian;
    if bs != [] && Take(version, seen, bs).Bytes? {
      var n := Take(version, seen, bs).n;
      var f := seen + bs[..n];
      if Complete(f) {
        DropCases(version, [], bs[n..]);
      } else {
        DropCases(version, f, bs[n..]);
      }
    }
  }

  /** A length prefix of zero, which the CHECK at rpc_data.cc:72 refuses. */
  predicate ZeroLength(f: seq<Byte>) {
    |f| >= 4 && MetaSize(f) == 0
  }

  /** On arbitrary bytes, a read stops the amended decoder's process exactly when what follows the
      frames it delivered starts with a zero length. */
  lemma {:induction false} StopTheorem(seen: seq<Byte>, bs: seq<Byte>)
    requires Unfinished(seen)
    ensures var r := Read(Amended, seen, bs);
            && Flatten(r.frames) <= seen + bs
            && (!r.alive <==> ZeroLength((seen + bs)[|Flatten(r.frames)|..]))
    decreases |bs|
  {
    hide MetaOf, FromBigEndian;
    if bs == [] {
      assert (seen + bs)[0..] == seen;
    } else {
      match Take(Amended, seen, bs)
      case Stop => assert (seen + bs)[0..] == seen + bs;
      case Unformatted => assert (seen + bs)[0..] == seen + bs;
      case Bytes(n) =>
        var f := seen + bs[..n];
        assert seen + bs == f + bs[n..];
        if Complete(f) {
          StopTheorem([], bs[n..]);
          StopStep(f, bs[n..], Read(Amended, [], bs[n..]).frames);
        } else {
          StopTheorem(f, bs[n..]);
        }
    }
  }

  lemma {:induction false} StopStep(f: seq<Byte>, rest: seq<Byte>, fs: seq<seq<Byte>>)
    requires Flatten(fs) <= [] + rest
    ensures Flatten([f] + fs) <= f + rest
    ensures (f + rest)[|Flatten([f] + fs)|..] == ([] + rest)[|Flatten(fs)|..]
  {
    assert ([f] + fs)[1..] == fs && [] + rest == rest;
    assert Flatten([f] + fs) == f + Flatten(fs);
    assert Flatten(fs) == rest[..|Flatten(fs)|];
    assert f + Flatten(fs) == (f + rest)[..|f| + |Flatten(fs)|];
  }

  /** Whole frames before the metadata that does not parse arrive; everything after its start is
      lost with it, whole frames included. */
  lemma {:induction false} UnparsableDrops(version: Version, fs: seq<seq<Byte>>, bad: seq<Byte>)
    requires AllFrames(fs) && Unparsable(bad)
    ensures Unfinished([]) && Read(version, [], Flatten(fs) + bad) == Reading(true, fs, bad, [])
    decreases |fs|
  {
    hide Read, Unfinished, IsFrame, Unparsable;
    NothingHeld(version);
    if fs == [] {
      assert Flatten(fs) + bad == bad;
      UnparsableFirst(version, bad);
    } else {
      var rest := Flatten(fs[1..]) + bad;
      UnparsableDrops(version, fs[1..], bad);
      assert Flatten(fs) + bad == fs[0] + rest;
      ReadOne(version, fs[0], rest);
      assert [fs[0]] + fs[1..] == fs;
    }
  }

  lemma {:induction false} UnparsableFirst(version: Version, bad: seq<Byte>)
    requires Unparsable(bad)
    ensures Unfinished([]) && Read(version, [], bad) == Reading(true, [], bad, [])
  {
    hide ParseFromArray, FromBigEndian;
    NothingHeld(version);
    assert [] + bad == bad;
    assert Take(version, [], bad) == Unformatted;
  }

  lemma {:induction false} ReadOne(version: Version, f: seq<Byte>, rest: seq<Byte>)
    requires IsFrame(f)
    ensures Unfinished([])
    ensures var r := Read(version, [], rest); Read(version, [], f + rest) == r.(frames := [f] + r.frames)
  {
    NothingHeld(version);
    hide Read, Unfinished, CompletesCutMeta;
    assert [] + (f + rest) == f + rest && (f + rest)[|f|..] == rest;
    ReadLong(version, [], f + rest, f);
  }

  /** After such a read the loop goes on. The next read brings the last `skip` bytes of the frame in
      which the dropping read ended, and then whole frames, in any division: the receiver gets exactly
      those frames, for all of them, if and only if there is nothing to skip, that is, if the
      dropping read ended at the end of a frame. */
  lemma {:induction false} ResyncTheorem(version: Version, fs: seq<seq<Byte>>, bad: seq<Byte>, skip: seq<Byte>)
    requires AllFrames(fs) && Unparsable(bad)
    ensures Unfinished([])
    ensures (forall gs, first, more | Clean(version, gs, [first] + more) ::
               Delivers(version, [], [Flatten(fs) + bad, skip + first] + more, fs + gs))
            <==> skip == []
  {
    NothingHeld(version);
    hide ReadFrom, Clean, Unfinished, Unparsable, Flatten;
    if skip == [] {
      forall gs, first, more | Clean(version, gs, [first] + more)
        ensures Delivers(version, [], [Flatten(fs) + bad, skip + first] + more, fs + gs)
      {
        assert skip + first == first;
        CleanDelivers(version, gs, [first] + more);
        AfterDrop(version, fs, bad, [first] + more);
        assert [Flatten(fs) + bad, skip + first] + more == [Flatten(fs) + bad] + ([first] + more);
      }
    } else {
      var b := ProbeMoves(skip);
      var h := ProbeBytes(b);
      var more: seq<seq<Byte>> := [];
      ProbeIsClean(version, b);
      assert [h] + more == [h] && [] + (skip + h) == skip + h;
      ProbeLost(version, [], skip + h, b);
      OneRead(version, [], skip + h);
      AfterDrop(version, fs, bad, [skip + h]);
      assert [Flatten(fs) + bad, skip + h] + more == [Flatten(fs) + bad] + [skip + h];
      assert !Delivers(version, [], [Flatten(fs) + bad, skip + h] + more, fs + [h]);
    }
  }

  lemma {:induction false} AfterDrop(version: Version, fs: seq<seq<Byte>>, bad: seq<Byte>, chunks: seq<seq<Byte>>)
    requires AllFrames(fs) && Unparsable(bad)
    ensures Unfinished([])
    ensures forall gs :: Delivers(version, [], [Flatten(fs) + bad] + chunks, fs + gs) <==> Delivers(version, [], chunks, gs)
  {
    UnparsableDrops(version, fs, bad);
    hide Read, Unfinished, Unparsable, Flatten;
    assert ([Flatten(fs) + bad] + chunks)[1..] == chunks;
    var r := ReadFrom(version, [], chunks);
    forall gs ensures fs + r.frames == fs + gs <==> r.frames == gs {
      if fs + r.frames == fs + gs { assert (fs + r.frames)[|fs|..] == (fs + gs)[|fs|..]; }
    }
  }
}
