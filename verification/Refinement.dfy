/** The link between bytes and messages: the FIFO of messages on a connection is what the framed
    byte stream and the incremental decoder implement. */
module Refinement {
  import opened Words
  import opened Metadata
  import opened Frames
  import opened Streams
  import opened Protocol
  import opened Safety
  import opened Theorems

  /** The messages `fifo` are on their way as bytes: the decoder holds `tail`, a part of the first,
      and `wire` is still to be read. */
  ghost predicate Coupled(fifo: seq<Message>, tail: seq<Byte>, wire: seq<Byte>) {
    && tail + wire == Flatten(FrameList(fifo))
    && (if fifo == [] then tail == [] else |tail| < |Frame(fifo[0])|)
  }

  /** Reading the next bytes, `bs`, hands over the first messages of the FIFO, whole and in order,
      and leaves the rest coupled; unless, in the shipped decoder, `bs` completes cut metadata. */
  lemma {:induction false} ReadRefinesFifo(version: Version, fifo: seq<Message>, tail: seq<Byte>, bs: seq<Byte>, more: seq<Byte>)
    requires AllValid(fifo) && Coupled(fifo, tail, bs + more)
    requires version == Amended || !CompletesCutMeta(tail, bs)
    ensures Unfinished(tail)
    ensures var r := Read(version, tail, bs);
            && r.alive && r.dropped == [] && |r.frames| <= |fifo|
            && AllFrames(r.frames) && Messages(r.frames) == fifo[..|r.frames|]
            && Coupled(fifo[|r.frames|..], r.tail, more)
  {
    hide Frame, Messages, FrameList, Flatten, Read, Unfinished, CompletesCutMeta, AllValid, AllFrames, Offset, InFrame;
    var fs := FrameList(fifo);
    FramesRoundTrip(fifo);
    ReadAhead(version, fs, tail, bs, more);
    var w := |Read(version, tail, bs).frames|;
    MessagesPrefix(fifo, w);
    RestCoupled(fifo, fs, w, |tail| + |bs|);
  }

  lemma {:induction false} MessagesPrefix(ms: seq<Message>, w: nat)
    requires AllValid(ms) && w <= |ms|
    ensures AllFrames(FrameList(ms)[..w]) && Messages(FrameList(ms)[..w]) == ms[..w]
  {
    hide Frame, IsFrame, MessageOf;
    FramesRoundTrip(ms);
    assert Messages(FrameList(ms)[..w]) == Messages(FrameList(ms))[..w];
  }

  lemma {:induction false} ReadAhead(version: Version, fs: seq<seq<Byte>>, tail: seq<Byte>, bs: seq<Byte>, more: seq<Byte>)
    requires AllFrames(fs) && tail + (bs + more) == Flatten(fs)
    requires if fs == [] then tail == [] else |tail| < |fs[0]|
    requires version == Amended || !CompletesCutMeta(tail, bs)
    ensures Unfinished(tail)
    ensures var r, q := Read(version, tail, bs), |tail| + |bs|;
            && |r.frames| <= |fs| && InFrame(fs, |r.frames|, q) && Flatten(fs)[q..] == more
            && r == Reading.Reading(true, fs[..|r.frames|], [], Flatten(fs)[Offset(fs, |r.frames|)..q])
  {
    hide IsFrame, Read, Unfinished, CompletesCutMeta;
    var s, p, q := Flatten(fs), |tail|, |tail| + |bs|;
    assert tail == s[0..p] && bs == s[p..q] && more == s[q..];
    OffsetTotal(fs);
    assert fs != [] ==> Offset(fs, 1) == |fs[0]|;
    ReadFromStream(version, fs, 0, p, q);
    assert fs[0..Whole(fs, q, 0)] == fs[..Whole(fs, q, 0)];
  }

  lemma {:induction false} RestCoupled(fifo: seq<Message>, fs: seq<seq<Byte>>, w: nat, q: nat)
    requires fs == FrameList(fifo) && InFrame(fs, w, q)
    ensures Coupled(fifo[w..], Flatten(fs)[Offset(fs, w)..q], Flatten(fs)[q..])
  {
    hide Frame, Flatten;
    var s, a := Flatten(fs), Offset(fs, w);
    assert FrameList(fifo[w..]) == fs[w..];
    FlattenFrom(fs, w);
    OffsetTotal(fs);
    assert s[a..q] + s[q..] == s[a..];
    if w == |fs| { assert s[a..q] == []; }
  }

  lemma {:induction false} FlattenFrom(fs: seq<seq<Byte>>, w: nat)
    requires w <= |fs|
    ensures Offset(fs, w) <= |Flatten(fs)| && Flatten(fs)[Offset(fs, w)..] == Flatten(fs[w..])
  {
    hide Flatten;
    assert fs == fs[..w] + fs[w..];
    FlattenAppend(fs[..w], fs[w..]);
    OffsetTotal(fs[..w]);
    OffsetPrefix(fs[..w], fs[w..], w);
  }

  /** Every message of a reachable run is a valid frame, in both directions, so the byte-level link
      applies to every read of every connection that starts in step. */
  lemma {:induction false} TrafficIsValid(s: System, k: nat)
    requires Reachable(s) && k < |s.connections|
    ensures AllValid(s.connections[k].up) && AllValid(s.connections[k].down)
  {
    hide SystemInv;
    ReachableKeeps(s);
    TrafficValid(s, k);
  }

  lemma {:induction false} TrafficValid(s: System, k: nat)
    requires SystemInv(s) && k < |s.connections|
    ensures AllValid(s.connections[k].up) && AllValid(s.connections[k].down)
  {
    hide ClientInv, DoneInv, StartedInv;
    var x := s.connections[k];
    assert TrafficInv(s.calls, s.executions, x);
    forall i | 0 <= i < |x.up| ensures ValidMessage(x.up[i]) { assert IsCall(x.up[i], SeqOf(x.up[i])); }
    forall i | 0 <= i < |x.down| ensures ValidMessage(x.down[i]) {
      assert IsCall(s.calls[SeqOf(x.down[i])], SeqOf(x.down[i]));
    }
  }

  /** A client's read, byte by byte, in any reachable state: what reaches ReceivePackage is exactly
      what the protocol's FIFO delivers next. */
  lemma {:induction false} ClientReadTheorem(s: System, version: Version, tail: seq<Byte>, bs: seq<Byte>, more: seq<Byte>)
    requires Reachable(s) && Protocol.Connected(s) && Coupled(Current(s).down, tail, bs + more)
    requires version == Amended || !CompletesCutMeta(tail, bs)
    ensures Unfinished(tail)
    ensures var r, down := Read(version, tail, bs), Current(s).down;
            && r.alive && |r.frames| <= |down| && AllFrames(r.frames)
            && Messages(r.frames) == down[..|r.frames|]
            && Coupled(down[|r.frames|..], r.tail, more)
  {
    hide Coupled, AllValid, Read;
    TrafficIsValid(s, |s.connections| - 1);
    ReadRefinesFifo(version, Current(s).down, tail, bs, more);
  }

  // ----- A connection in one direction, over whole runs -----

  /** The sender's frames go into `wire`; each read takes bytes out of it in front. */
  datatype Link = Link(sent: seq<Message>, delivered: seq<Message>, tail: seq<Byte>, wire: seq<Byte>)

  datatype Transfer = Send(message: Message) | Recv(count: nat)

  /** A read brings at least one byte and at most what was sent. The shipped decoder's process goes
      on only if the read does not complete cut metadata. */
  predicate CanTransfer(version: Version, l: Link, t: Transfer) {
    match t
    case Send(m) => ValidMessage(m)
    case Recv(n) => 0 < n <= |l.wire| && (version == Amended || !CompletesCutMeta(l.tail, l.wire[..n]))
  }

  /** Recv is ReadInLoop on the next n bytes. It leaves the link alone only where the read would not
      be defined, which TransferKeeps excludes. */
  function Moved(version: Version, l: Link, t: Transfer): Link
    requires CanTransfer(version, l, t)
  {
    match t
    case Send(m) => l.(sent := l.sent + [m], wire := l.wire + Frame(m))
    case Recv(n) =>
      if !Unfinished(l.tail) then l
      else
        var r := Read(version, l.tail, l.wire[..n]);
        if !AllFrames(r.frames) then l
        else l.(delivered := l.delivered + Messages(r.frames), tail := r.tail, wire := l.wire[n..])
  }

  predicate LinkRun(version: Version, l: Link, ts: seq<Transfer>)
    decreases |ts|
  {
    ts == [] || (CanTransfer(version, l, ts[0]) && LinkRun(version, Moved(version, l, ts[0]), ts[1..]))
  }

  function LinkAfter(version: Version, l: Link, ts: seq<Transfer>): Link
    requires LinkRun(version, l, ts)
    decreases |ts|
  {
    if ts == [] then l else LinkAfter(version, Moved(version, l, ts[0]), ts[1..])
  }

  /** What was sent is what was delivered and then what is on its way. */
  ghost predicate LinkInv(l: Link) {
    && l.delivered <= l.sent && AllValid(l.sent)
    && Coupled(l.sent[|l.delivered|..], l.tail, l.wire)
  }

  /** Sending appends to the FIFO. */
  lemma {:induction false} SendRefinesFifo(fifo: seq<Message>, m: Message, tail: seq<Byte>, wire: seq<Byte>)
    requires Coupled(fifo, tail, wire)
    ensures Coupled(fifo + [m], tail, wire + Frame(m))
  {
    hide Frame;
    FrameLength(m);
    assert FrameList(fifo + [m]) == FrameList(fifo) + [Frame(m)];
    FlattenSnoc(FrameList(fifo), Frame(m));
    assert tail + (wire + Frame(m)) == (tail + wire) + Frame(m);
  }

  lemma {:induction false} FrameLength(m: Message)
    ensures |Frame(m)| > 0
  {
  }

  lemma {:induction false} FirstFrameFits(fifo: seq<Message>)
    ensures fifo != [] ==> |Frame(fifo[0])| <= |Flatten(FrameList(fifo))|
    ensures fifo == [] ==> Flatten(FrameList(fifo)) == []
  {
  }

  lemma {:induction false} TransferKeeps(version: Version, l: Link, t: Transfer)
    requires LinkInv(l) && CanTransfer(version, l, t)
    ensures LinkInv(Moved(version, l, t)) && l.sent <= Moved(version, l, t).sent
    ensures t.Recv? ==> Unfinished(l.tail) && Read(version, l.tail, l.wire[..t.count]).alive
    ensures t.Recv? ==> |Moved(version, l, t).wire| == |l.wire| - t.count
  {
    hide Coupled, Frame, Read, CompletesCutMeta, Unfinished, AllFrames;
    var d := |l.delivered|;
    var fifo := l.sent[d..];
    match t
    case Send(m) =>
      SendRefinesFifo(fifo, m, l.tail, l.wire);
      assert (l.sent + [m])[d..] == fifo + [m];
    case Recv(n) =>
      assert l.wire == l.wire[..n] + l.wire[n..];
      assert AllValid(fifo);
      ReadRefinesFifo(version, fifo, l.tail, l.wire[..n], l.wire[n..]);
      var w := |Read(version, l.tail, l.wire[..n]).frames|;
      assert l.sent == l.sent[..d] + fifo && l.sent[d + w..] == fifo[w..];
  }

  lemma {:induction false} LinkKeeps(version: Version, l: Link, ts: seq<Transfer>)
    requires LinkInv(l) && LinkRun(version, l, ts)
    ensures LinkInv(LinkAfter(version, l, ts))
    decreases |ts|
  {
    hide LinkInv, CanTransfer, Moved;
    if ts != [] {
      TransferKeeps(version, l, ts[0]);
      LinkKeeps(version, Moved(version, l, ts[0]), ts[1..]);
    }
  }

  /** Over every interleaving of sends and reads of any size, the byte stream behaves as a FIFO of
      messages: what was delivered is a prefix of what was sent, and once every byte was read it is
      all of it. */
  lemma {:induction false} LinkTheorem(version: Version, l: Link, ts: seq<Transfer>)
    requires l == Link([], [], [], []) && LinkRun(version, l, ts)
    ensures var r := LinkAfter(version, l, ts);
            && r.delivered <= r.sent
            && (r.wire == [] ==> r.delivered == r.sent && r.tail == [])
            && r.tail + r.wire == Flatten(FrameList(r.sent[|r.delivered|..]))
  {
    hide LinkRun, LinkAfter, Frame;
    LinkKeeps(version, l, ts);
    var r := LinkAfter(version, l, ts);
    FirstFrameFits(r.sent[|r.delivered|..]);
    assert r.wire == [] ==> r.tail + r.wire == r.tail;
  }
}
