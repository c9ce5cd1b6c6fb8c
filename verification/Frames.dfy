/** Framed messages (rpc/detail/rpc_data.cc): a 4-byte big-endian metadata length, the metadata
    and the payload. This module is the whole-stream specification: what one frame is, what one
    call of the incremental decoder takes from the bytes it is given, and what a read delivers. */
module Frames {
  import opened Words
  import opened Metadata

  datatype Message = Message(meta: RPCMetaData, payload: seq<Byte>)

  /** What both senders build: every field set, message_length the payload's length. */
  predicate ValidMessage(m: Message) {
    IsInitialized(m.meta) && MessageLength(m.meta) == |m.payload|
  }

  /** ToBuffer, as the bytes it leaves in the buffer. */
  function Frame(m: Message): (f: seq<Byte>)
    ensures |f| == 4 + ByteSize(m.meta) + |m.payload|
  {
    ByteSizeZero(m.meta);
    SerializedLength(m.meta);
    BigEndian(ByteSize(m.meta)) + Serialize(m.meta) + m.payload
  }

  // ----- One frame, as a decoder that holds its first bytes sees it -----

  function MetaSize(f: seq<Byte>): U32
    requires |f| >= 4
  {
    FromBigEndian(f)
  }

  predicate MetaArrived(f: seq<Byte>) {
    |f| >= 4 && |f| >= 4 + MetaSize(f)
  }

  function MetaOf(f: seq<Byte>): ParseResult
    requires MetaArrived(f)
  {
    ParseFromArray(f[4..4 + MetaSize(f)])
  }

  function FrameSize(f: seq<Byte>): nat
    requires MetaArrived(f)
  {
    4 + MetaSize(f) + MessageLength(MetaOf(f).meta)
  }

  /** Bytes a decoder may hold: no zero metadata length, no unparsable metadata, no excess. */
  predicate Held(f: seq<Byte>) {
    && (|f| >= 4 ==> MetaSize(f) > 0)
    && (MetaArrived(f) ==> MetaOf(f).ok && |f| <= FrameSize(f))
  }

  predicate Complete(f: seq<Byte>) {
    MetaArrived(f) && |f| >= FrameSize(f)
  }

  /** The message a complete frame carries to the receiver. */
  function MessageOf(f: seq<Byte>): Message
    requires MetaArrived(f)
  {
    Message(MetaOf(f).meta, f[4 + MetaSize(f)..])
  }

  /** Which decoder: the one in the source, or the one its tests intend, which drops
      rpc_data.cc:95-96 and clears the buffer before an empty payload too. */
  datatype Version = Shipped | Amended

  /** How one call of AppendBinaries ends: it takes some bytes, reports -1, or stops the
      process at a CHECK (or, given no bytes at all, at an out-of-range access). */
  datatype Taken = Bytes(n: nat) | Unformatted | Stop

  /** The metadata of this frame was cut by a read boundary and `bs` completes it. */
  predicate CompletesCutMeta(seen: seq<Byte>, bs: seq<Byte>) {
    var all := seen + bs;
    |seen| > 4 && !MetaArrived(seen) && MetaArrived(all)
  }

  /** What AppendBinaries does with `bs` when `seen` is what it holds of the frame so far. */
  function Take(version: Version, seen: seq<Byte>, bs: seq<Byte>): (r: Taken)
    requires Held(seen)
    ensures r.Bytes? ==> 1 <= r.n <= |bs| && Held(seen + bs[..r.n])
    ensures r.Bytes? && !Complete(seen + bs[..r.n]) ==> r.n == |bs|
  {
    var all := seen + bs;
    if bs == [] || Complete(seen) then Stop
    else if |all| < 4 then assert bs[..|bs|] == bs; Bytes(|bs|)
    else if MetaSize(all) == 0 then Stop
    else if !MetaArrived(all) then assert bs[..|bs|] == bs; Bytes(|bs|)
    else if version == Shipped && CompletesCutMeta(seen, bs) then Stop
    else if !MetaOf(all).ok then Unformatted
    else
      PrefixAgrees(all, |seen|);
      assert all[..|seen|] == seen;
      var n := if |all| <= FrameSize(all) then |bs| else FrameSize(all) - |seen|;
      PrefixAgrees(all, |seen| + n);
      assert all[..|seen| + n] == seen + bs[..n];
      Bytes(n)
  }

  /** A longer string says the same about the frame it starts with. */
  lemma {:induction false} PrefixAgrees(f: seq<Byte>, n: nat)
    requires n <= |f|
    ensures n >= 4 ==> MetaSize(f[..n]) == MetaSize(f)
    ensures MetaArrived(f[..n]) ==> MetaArrived(f) && MetaOf(f[..n]) == MetaOf(f) && FrameSize(f[..n]) == FrameSize(f)
    ensures MetaArrived(f) && n >= 4 + MetaSize(f) ==> MetaArrived(f[..n])
  {
    if n >= 4 {
      var k := 4 + MetaSize(f);
      if k <= n { assert f[..n][4..k] == f[4..k]; }
    }
  }

  // ----- One read -----

  /** `alive` is false when a CHECK stopped the process. `frames` are handed to the receiver,
      `dropped` is what a -1 discards, `tail` is what partial_message_ holds afterwards. */
  datatype Reading = Reading(alive: bool, frames: seq<seq<Byte>>, dropped: seq<Byte>, tail: seq<Byte>)

  predicate Unfinished(f: seq<Byte>) {
    Held(f) && !Complete(f)
  }

  function Read(version: Version, seen: seq<Byte>, bs: seq<Byte>): (r: Reading)
    requires Unfinished(seen)
    ensures r.alive ==> Unfinished(r.tail)
    decreases |bs|
  {
    if bs == [] then Reading(true, [], [], seen)
    else
      match Take(version, seen, bs)
      case Stop => Reading(false, [], [], seen)
      case Unformatted => Reading(true, [], seen + bs, [])
      case Bytes(n) =>
        var f := seen + bs[..n];
        if Complete(f) then
          var r := Read(version, [], bs[n..]);
          r.(frames := [f] + r.frames)
        else
          Read(version, f, bs[n..])
  }

  /** Conservation: every byte read is in a delivered frame, dropped after a -1, or still held. */
  lemma {:induction false} ReadConserves(version: Version, seen: seq<Byte>, bs: seq<Byte>)
    requires Unfinished(seen)
    requires Read(version, seen, bs).alive
    ensures var r := Read(version, seen, bs); seen + bs == Flatten(r.frames) + r.dropped + r.tail
    decreases |bs|
  {
    if bs != [] && Take(version, seen, bs).Bytes? {
      var n := Take(version, seen, bs).n;
      if Complete(seen + bs[..n]) {
        ReadConserves(version, [], bs[n..]);
        var r := Read(version, [], bs[n..]);
        ConserveStep(seen, bs, n, r.frames, r.dropped, r.tail);
      } else {
        assert bs[..n] == bs && bs[n..] == [];
      }
    }
  }

  lemma {:induction false} ConserveStep(seen: seq<Byte>, bs: seq<Byte>, n: nat, fs: seq<seq<Byte>>, dropped: seq<Byte>, tail: seq<Byte>)
    requires n <= |bs| && [] + bs[n..] == Flatten(fs) + dropped + tail
    ensures seen + bs == Flatten([seen + bs[..n]] + fs) + dropped + tail
  {
    var f := seen + bs[..n];
    assert ([f] + fs)[1..] == fs;
    assert seen + bs == f + bs[n..];
    assert Flatten([f] + fs) + dropped + tail == f + (Flatten(fs) + dropped + tail);
  }

  // ----- A connection: reads in sequence -----

  function ReadAll(version: Version, chunks: seq<seq<Byte>>): (r: Reading)
    ensures r.alive ==> Unfinished(r.tail)
    decreases |chunks|
  {
    if chunks == [] then Reading(true, [], [], [])
    else
      var before := ReadAll(version, chunks[..|chunks| - 1]);
      if !before.alive then before
      else
        var r := Read(version, before.tail, chunks[|chunks| - 1]);
        Reading(r.alive, before.frames + r.frames, before.dropped + r.dropped, r.tail)
  }
}
