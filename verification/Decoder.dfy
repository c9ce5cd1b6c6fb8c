/** The incremental decoder and the read loop that drives it, as the source writes them: RPCData's
    input side (rpc/detail/rpc_data.cc) and RPCChannel::ReadInLoop (rpc/detail/rpc_channel.cc). */
module Decoder {
  import opened Words
  import opened Metadata
  import opened Frames
  import opened Streams

  /** How one phase of AppendBinaries ends: with its result, or by passing on to the next phase
      after taking n bytes. */
  datatype Phase = Done(taken: Taken) | Next(n: nat)

  function Shift(offset: nat, r: Taken): Taken {
    if r.Bytes? then Bytes(offset + r.n) else r
  }

  /** Taking the first k bytes and then the rest is taking them all, if metadata is cut by neither
      or by both. */
  lemma {:induction false} TakeShift(version: Version, seen: seq<Byte>, bs: seq<Byte>, k: nat)
    requires Unfinished(seen) && 0 < k < |bs| && Unfinished(seen + bs[..k])
    requires version == Shipped ==> (CompletesCutMeta(seen, bs) <==> CompletesCutMeta(seen + bs[..k], bs[k..]))
    ensures Take(version, seen, bs) == Shift(k, Take(version, seen + bs[..k], bs[k..]))
  {
    hide ParseFromArray, FromBigEndian, MessageLength;
    assert seen + bs[..k] + bs[k..] == seen + bs;
  }

  lemma {:induction false} Pieces(seen: seq<Byte>, bs: seq<Byte>, a: nat, n: nat)
    requires a + n <= |bs|
    ensures seen + bs[..a] + bs[a..][..n] == seen + bs[..a + n] && bs[a..][n..] == bs[a + n..]
  {
  }

  lemma {:induction false} TakeNothing(version: Version, seen: seq<Byte>)
    requires Held(seen)
    ensures Take(version, seen, []) == Stop
  {
  }

  /** The bytes of the metadata, whether or not some of them were held. */
  lemma {:induction false} MetaBytes(seen: seq<Byte>, bs: seq<Byte>, n: nat)
    requires 4 <= |seen| < 4 + n <= |seen| + |bs|
    ensures var lacked := 4 + n - |seen|;
            var g := seen + bs[..lacked];
            |g| == 4 + n && (seen[4..] + bs[..lacked])[..n] == g[4..4 + n] && (|seen| == 4 ==> bs[..n] == g[4..4 + n])
  {
  }

  lemma {:induction false} ArrivedIsNotEmpty(f: seq<Byte>)
    ensures MetaArrived(f) && MetaOf(f).ok ==> MetaOf(f).meta != EMPTY
  {
    if MetaArrived(f) { ParsedIsNotEmpty(f[4..4 + MetaSize(f)]); }
  }

  /** What Take does while the metadata is still coming in: `need` bytes of it are missing. */
  lemma {:induction false} TakeMeta(version: Version, seen: seq<Byte>, bs: seq<Byte>, need: nat)
    requires Held(seen) && |seen| >= 4 && bs != [] && need == 4 + MetaSize(seen) - |seen| && need > 0
    ensures |bs| < need ==>
              && Take(version, seen, bs) == Bytes(|bs|)
              && Held(seen + bs) && !MetaArrived(seen + bs) && MetaSize(seen + bs) == MetaSize(seen)
    ensures |bs| >= need ==>
              var g := seen + bs[..need];
              && MetaArrived(g) && MetaSize(g) == MetaSize(seen)
              && (if version == Shipped && |seen| > 4 then Take(version, seen, bs) == Stop
                  else if !MetaOf(g).ok then Take(version, seen, bs) == Unformatted
                  else if |bs| == need || MessageLength(MetaOf(g).meta) == 0 then
                    Held(g) && Take(version, seen, bs) == Bytes(need)
                  else
                    Held(g) && Take(version, seen, bs) == Shift(need, Take(version, g, bs[need..])))
  {
    hide ParseFromArray, FromBigEndian, MessageLength;
    var all := seen + bs;
    assert all[..|seen|] == seen;
    PrefixAgrees(all, |seen|);
    if |bs| >= need {
      var g := seen + bs[..need];
      assert g == all[..|seen| + need];
      PrefixAgrees(all, |g|);
      if MetaOf(g).ok && !(version == Shipped && |seen| > 4) && |bs| > need && MessageLength(MetaOf(g).meta) != 0 {
        TakeShift(version, seen, bs, need);
      }
    }
  }

  /** One turn of the read loop, in terms of what the decoder takes. */
  lemma {:induction false} ReadStep(version: Version, seen: seq<Byte>, bs: seq<Byte>)
    requires Unfinished(seen) && bs != []
    ensures Unfinished([])
    ensures var r := Read(version, seen, bs);
            match Take(version, seen, bs)
            case Stop => !r.alive
            case Unformatted => r == Reading(true, [], seen + bs, [])
            case Bytes(n) =>
              var f, r' := seen + bs[..n], Read(version, [], bs[n..]);
              if Complete(f) then IsFrame(f) && r == r'.(frames := [f] + r'.frames)
              else n == |bs| && Unfinished(f) && r == Reading(true, [], [], f)
  {
    if Take(version, seen, bs).Bytes? && !Complete(seen + bs[..Take(version, seen, bs).n]) {
      assert bs[|bs|..] == [];
    }
  }

  /** The same, after `frames` were delivered by earlier turns. */
  lemma {:induction false} TurnAdvances(version: Version, seen: seq<Byte>, bs: seq<Byte>, frames: seq<seq<Byte>>)
    requires Unfinished(seen) && bs != []
    ensures Unfinished([])
    ensures var r := Read(version, seen, bs);
            match Take(version, seen, bs)
            case Stop => !r.alive
            case Unformatted => r.alive && r.frames == [] && r.tail == []
            case Bytes(n) =>
              var f := seen + bs[..n];
              if Complete(f) then
                IsFrame(f) && var r' := Read(version, [], bs[n..]);
                r.(frames := frames + r.frames) == r'.(frames := frames + [f] + r'.frames)
              else Unfinished(f) && var r' := Read(version, f, bs[n..]); r.(frames := frames + r.frames) == r'.(frames := frames + r'.frames)
  {
    hide Read, Take, Held, Complete, IsFrame;
    ReadStep(version, seen, bs);
    match Take(version, seen, bs) {
      case Stop =>
      case Unformatted =>
      case Bytes(n) =>
        var f := seen + bs[..n];
        if Complete(f) {
          var r' := Read(version, [], bs[n..]);
          assert frames + ([f] + r'.frames) == frames + [f] + r'.frames;
        } else {
          assert bs[n..] == [];
          NothingHeld(version);
        }
    }
  }

  /** RPCData for input. `received` is every byte of this message taken so far. */
  class RPCData {
    const version: Version
    var metaSize: U32
    var meta: RPCMetaData
    var payloadBinaries: seq<Byte>
    ghost var received: seq<Byte>

    /** The three phases, as a function of the bytes received. */
    ghost predicate Valid()
      reads this
      ensures Valid() ==> Held(received)
    {
      && Held(received)
      && metaSize == (if |received| < 4 then 0 else MetaSize(received))
      && meta == (if MetaArrived(received) then MetaOf(received).meta else EMPTY)
      && payloadBinaries == (if |received| < 4 then received
                             else if MetaArrived(received) then received[4 + metaSize..]
                             else received[4..])
    }

    constructor (version: Version)
      ensures Valid() && received == [] && this.version == version
    {
      this.version := version;
      metaSize, meta, payloadBinaries, received := 0, EMPTY, [], [];
    }

    /** Each CHECK that fails returns Stop; -1 is Unformatted. The phases of the source's body are
        the methods below, each on the bytes that are left. */
    method AppendBinaries(binaries: seq<Byte>) returns (r: Taken)
      requires Valid()
      modifies this
      ensures r == Take(version, old(received), binaries)
      ensures r.Bytes? ==> Valid() && received == old(received) + binaries[..r.n]
    {
      hide Take, Valid;
      if metaSize == 0 {
        var phase := AppendSize(binaries);
        if phase.Done? { return phase.taken; }
        r := AppendRest(binaries[phase.n..]);
        if r.Bytes? { Pieces(old(received), binaries, phase.n, r.n); }
        r := Shift(phase.n, r);
      } else {
        r := AppendRest(binaries);
      }
    }

    /** rpc_data.cc:80-137, once the length prefix is known. */
    method AppendRest(binaries: seq<Byte>) returns (r: Taken)
      requires Valid() && metaSize > 0
      modifies this
      ensures r == Take(version, old(received), binaries)
      ensures r.Bytes? ==> Valid() && received == old(received) + binaries[..r.n]
    {
      hide Take, Valid, ByteSize;
      ByteSizeZero(meta);
      if ByteSize(meta) == 0 {
        var phase := AppendMeta(binaries);
        if phase.Done? { return phase.taken; }
        r := AppendPayload(binaries[phase.n..]);
        if r.Bytes? { Pieces(old(received), binaries, phase.n, r.n); }
        r := Shift(phase.n, r);
      } else {
        r := AppendPayload(binaries);
      }
    }

    /** rpc_data.cc:53-78, the length prefix. */
    method AppendSize(binaries: seq<Byte>) returns (phase: Phase)
      requires Valid() && metaSize == 0
      modifies this
      ensures phase.Done? ==> phase.taken == Take(version, old(received), binaries)
      ensures phase.Done? && phase.taken.Bytes? ==> Valid() && received == old(received) + binaries[..phase.taken.n]
      ensures phase.Next? ==> Valid() && metaSize > 0 && meta == EMPTY && 0 < phase.n < |binaries|
      ensures phase.Next? ==> received == old(received) + binaries[..phase.n]
      ensures phase.Next? ==> Take(version, old(received), binaries) == Shift(phase.n, Take(version, received, binaries[phase.n..]))
    {
      var length := |binaries|;
      assert |payloadBinaries| < 4;               // the CHECK of rpc_data.cc:54
      var lacked := 4 - |payloadBinaries|;
      if length < lacked {
        if length == 0 { return Done(Stop); }
        payloadBinaries := payloadBinaries + binaries;
        received := received + binaries;
        assert binaries[..length] == binaries;
        return Done(Bytes(length));
      }
      if payloadBinaries != [] { payloadBinaries := payloadBinaries + binaries[..lacked]; }
      var sizeBinaries := if payloadBinaries != [] then payloadBinaries else binaries;
      metaSize := FromBigEndian(sizeBinaries);
      if metaSize == 0 { return Done(Stop); }
      payloadBinaries := [];
      ghost var seen := received;
      received := received + binaries[..lacked];
      if length == lacked { return Done(Bytes(lacked)); }
      TakeShift(version, seen, binaries, lacked);
      return Next(lacked);
    }

    /** rpc_data.cc:80-122, the metadata. */
    method AppendMeta(binaries: seq<Byte>) returns (phase: Phase)
      requires Valid() && metaSize > 0 && meta == EMPTY
      modifies this
      ensures phase.Done? ==> phase.taken == Take(version, old(received), binaries)
      ensures phase.Done? && phase.taken.Bytes? ==> Valid() && received == old(received) + binaries[..phase.taken.n]
      ensures phase.Next? ==> Valid() && meta != EMPTY && 0 < phase.n < |binaries|
      ensures phase.Next? ==> received == old(received) + binaries[..phase.n]
      ensures phase.Next? ==> Take(version, old(received), binaries) == Shift(phase.n, Take(version, received, binaries[phase.n..]))
    {
      ghost var seen := received;
      hide Take, ParseFromArray, MetaSize, MessageLength;
      ArrivedIsNotEmpty(seen);
      var length := |binaries|;
      assert |payloadBinaries| < metaSize;        // the CHECK of rpc_data.cc:82
      var lacked := metaSize - |payloadBinaries|;
      TakeNothing(version, seen);
      if length == 0 { return Done(Stop); }
      TakeMeta(version, seen, binaries, lacked);
      if length < lacked {
        payloadBinaries := payloadBinaries + binaries;
        received := received + binaries;
        assert binaries[..length] == binaries;
        return Done(Bytes(length));
      }
      ghost var g := seen + binaries[..lacked];
      if payloadBinaries != [] {
        payloadBinaries := payloadBinaries + binaries[..lacked];
        if version == Shipped {
          if |payloadBinaries| >= metaSize { return Done(Stop); }
        }
      }
      var metaBinaries := if payloadBinaries != [] then payloadBinaries else binaries;
      MetaBytes(seen, binaries, metaSize);
      assert metaBinaries[..metaSize] == g[4..4 + metaSize];
      var parsed := ParseFromArray(metaBinaries[..metaSize]);
      ParsedIsNotEmpty(metaBinaries[..metaSize]);
      meta := parsed.meta;
      if !parsed.ok { return Done(Unformatted); }
      if MessageLength(meta) != 0 || version == Amended { payloadBinaries := []; }
      received := g;
      if length == lacked || MessageLength(meta) == 0 { return Done(Bytes(lacked)); }
      return Next(lacked);
    }

    /** rpc_data.cc:124-137, the payload. */
    method AppendPayload(binaries: seq<Byte>) returns (r: Taken)
      requires Valid() && meta != EMPTY
      modifies this
      ensures r == Take(version, old(received), binaries)
      ensures r.Bytes? ==> Valid() && received == old(received) + binaries[..r.n]
    {
      hide Merge, FromBigEndian;
      ghost var all := received + binaries;
      assert all[..|received|] == received;
      PrefixAgrees(all, |received|);
      var length := |binaries|;
      if |payloadBinaries| >= MessageLength(meta) { return Stop; }
      var lacked := MessageLength(meta) - |payloadBinaries|;
      if length < lacked {
        if length == 0 { return Stop; }
        payloadBinaries := payloadBinaries + binaries;
        received := received + binaries;
        assert binaries[..length] == binaries;
        return Bytes(length);
      }
      payloadBinaries := payloadBinaries + binaries[..lacked];
      received := received + binaries[..lacked];
      assert received == all[..|received|];
      PrefixAgrees(all, |received|);
      return Bytes(lacked);
    }

    /** The CHECK in Partial never fails on a valid object. */
    method Partial() returns (partial: bool)
      requires Valid()
      ensures partial <==> !Complete(received)
    {
      ByteSizeZero(meta);
      if ByteSize(meta) == 0 { return true; }
      assert |payloadBinaries| <= MessageLength(meta);
      return |payloadBinaries| < MessageLength(meta);
    }

    /** What the receiver reads with Meta() and MessageBinary(). */
    method Contents() returns (m: Message)
      requires Valid() && Complete(received)
      ensures m == MessageOf(received)
    {
      return Message(meta, payloadBinaries);
    }
  }

  /** RPCChannel's read half. `delivered` is what receiver_ has been called with. */
  class RPCChannel {
    const version: Version
    var partialMessage: RPCData?
    var delivered: seq<Message>

    ghost predicate Valid()
      reads this, partialMessage
    {
      partialMessage != null ==>
        && partialMessage.version == version && partialMessage.Valid() && !Complete(partialMessage.received)
    }

    /** The bytes of the unfinished message. */
    ghost function Tail(): seq<Byte>
      reads this, partialMessage
    {
      if partialMessage == null then [] else partialMessage.received
    }

    constructor (version: Version)
      ensures Valid() && Tail() == [] && delivered == [] && this.version == version
    {
      this.version := version;
      partialMessage, delivered := null, [];
    }

    /** One turn of the loop, rpc_channel.cc:73-96. */
    method ReadSome(left: seq<Byte>) returns (handled: Taken)
      requires Valid() && left != []
      modifies this, partialMessage
      ensures Unfinished(old(Tail())) && handled == Take(version, old(Tail()), left)
      ensures partialMessage == old(partialMessage) || partialMessage == null || fresh(partialMessage)
      ensures handled != Stop ==> Valid()
      ensures handled == Unformatted ==> Tail() == [] && delivered == old(delivered)
      ensures handled.Bytes? ==>
                var f := old(Tail()) + left[..handled.n];
                && Tail() == (if Complete(f) then [] else f)
                && (Complete(f) ==> MetaArrived(f))
                && delivered == old(delivered) + (if Complete(f) then [MessageOf(f)] else [])
    {
      NothingHeld(version);
      hide Take, Held, MessageOf, RPCData.Valid;
      if partialMessage == null { partialMessage := new RPCData(version); }
      handled := partialMessage.AppendBinaries(left);
      if handled == Unformatted { partialMessage := null; }
      if !handled.Bytes? { return; }
      assert handled.n <= |left|;
      var partial := partialMessage.Partial();
      if partial {
        assert handled.n == |left|;
      } else {
        var m := partialMessage.Contents();
        delivered := delivered + [m];
        partialMessage := null;
      }
    }

    /** ReadInLoop on a successful read of `buffer`; false when a CHECK stopped the process. The
        CHECKs at rpc_channel.cc:86 and 91 are the assertions in ReadSome: they never fail. */
    method ReadInLoop(buffer: seq<Byte>) returns (alive: bool)
      requires Valid()
      modifies this, partialMessage
      ensures Unfinished(old(Tail()))
      ensures var r := Read(version, old(Tail()), buffer);
              && alive == r.alive
              && (alive ==> AllFrames(r.frames) && delivered == old(delivered) + Messages(r.frames))
              && (alive ==> Valid() && Tail() == r.tail)
    {
      NothingHeld(version);
      hide Read, Take, Held, Complete, MessageOf, RPCData.Valid, IsFrame, AllFrames, Messages;
      var offset := 0;
      ghost var frames: seq<seq<Byte>> := [];
      NoMessages();
      assert buffer[0..] == buffer;
      while offset < |buffer|
        invariant 0 <= offset <= |buffer| && Valid() && Unfinished(Tail()) && AllFrames(frames)
        invariant partialMessage == old(partialMessage) || partialMessage == null || fresh(partialMessage)
        invariant delivered == old(delivered) + Messages(frames)
        invariant var r := Read(version, Tail(), buffer[offset..]);
                  Read(version, old(Tail()), buffer) == r.(frames := frames + r.frames)
      {
        ghost var left := buffer[offset..];
        ghost var f := Tail();
        TurnAdvances(version, f, left, frames);
        assert frames + [] == frames;
        var handled := ReadSome(buffer[offset..]);
        if handled == Stop { return false; }
        if handled == Unformatted { return true; }
        assert buffer[offset..][handled.n..] == buffer[offset + handled.n..];
        f := f + left[..handled.n];
        offset := offset + handled.n;
        if Complete(f) {
          MessagesSnoc(frames, f);
          frames := frames + [f];
        }
      }
      assert buffer[offset..] == [] && frames + [] == frames;
      return true;
    }
  }

  lemma {:induction false} NoMessages()
    ensures AllFrames([]) && Messages([]) == []
  {
  }

  lemma {:induction false} MessagesSnoc(fs: seq<seq<Byte>>, f: seq<Byte>)
    requires AllFrames(fs) && IsFrame(f)
    ensures AllFrames(fs + [f]) && Messages(fs + [f]) == Messages(fs) + [MessageOf(f)]
  {
  }
}
