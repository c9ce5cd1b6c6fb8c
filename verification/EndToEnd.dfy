/** The whole library over bytes: the client, sockets that carry bytes in pieces of any size, both
    decoders one loop turn at a time, and the server. Every run is a run of module Protocol, so the
    safety theorems hold end to end. */
module EndToEnd {
  import opened Words
  import opened Frames
  import opened Streams
  import opened Protocol
  import opened Safety
  import opened Wire
  import opened Refinement
  import Theorems

  // ----- Bytes, sockets, decoders -----

  /** The frames of these messages, one after the other. */
  function Wired(ms: seq<Message>): seq<Byte> {
    Flatten(FrameList(ms))
  }

  /** One direction of a socket with the channel that reads it: bytes under way, the rest of the
      current read, and what partial_message_ holds. */
  datatype Pipe = Pipe(wire: seq<Byte>, buffer: seq<Byte>, tail: seq<Byte>)

  /** A socket and the server channel at its end; `down` are the bytes on their way to the client. */
  datatype Socket = Socket(up: Pipe, serving: seq<Message>, down: seq<Byte>)

  /** `buffer` and `partial` belong to the client's channel: the rest of the current read, and
      partial_message_, which survives a change of socket. */
  datatype ByteSystem = ByteSystem(
    client: Client,
    sockets: seq<Socket>,
    buffer: seq<Byte>,
    partial: seq<Byte>,
    calls: map<nat, Message>,
    executions: set<Execution>,
    done: seq<Completion>)

  datatype Turn = Turn(message: Option<Message>, tail: seq<Byte>, rest: seq<Byte>)

  /** One turn of the read loop, rpc_channel.cc:73-96. The first branch is never taken. */
  function LoopTurn(version: Version, tail: seq<Byte>, buffer: seq<Byte>): Turn {
    if !Unfinished(tail) then Turn(None, tail, buffer)
    else
      match Take(version, tail, buffer)
      case Stop => Turn(None, tail, buffer)
      case Unformatted => Turn(None, [], [])
      case Bytes(n) =>
        var f := tail + buffer[..n];
        if Complete(f) then Turn(Some(MessageOf(f)), [], buffer[n..]) else Turn(None, f, buffer[n..])
  }

  // ----- Steps -----

  datatype ByteStep =
    | MakeCall(request: Request)
    | WriteDone                                  // async_write has put all its bytes on the wire
    | WriteBroke(cut: nat)                       // it failed: the last `cut` bytes never left
    | ServerReads(socket: nat, count: nat)       // async_read_some brings some bytes
    | ServerDecodes(socket: nat)                 // one turn of the server's read loop
    | ServiceDone(socket: nat, task: nat, body: seq<Byte>)
    | ClientReads(count: nat)
    | ClientDecodes
    | CallbackDone
    | ReadBroke
    | ReadStopped
    | ConnectFailed
    | Reconnected
    | Terminated

  function Last(b: ByteSystem): Socket
    requires b.sockets != []
  {
    b.sockets[|b.sockets| - 1]
  }

  function SetLast(b: ByteSystem, y: Socket): ByteSystem
    requires b.sockets != []
  {
    b.(sockets := b.sockets[|b.sockets| - 1 := y])
  }

  /** The decoder's process goes on: the turn does not complete cut metadata, or the decoder is amended. */
  predicate Survives(version: Version, tail: seq<Byte>, buffer: seq<Byte>) {
    version == Amended || !CompletesCutMeta(tail, buffer)
  }

  /** The response that this turn delivers does not overtake the completion of its request's write. */
  predicate InTurn(c: Client, t: Turn) {
    t.message.Some? && c.writing != [] && c.pending != [] ==> SeqOf(t.message.value) != c.pending[0]
  }

  predicate OnLoop(step: ByteStep) {
    !(step.MakeCall? || step.CallbackDone? || step.ServerReads? || step.ServerDecodes? || step.ServiceDone?)
  }

  /** When a step can happen. A write that broke left some of its own frame's bytes unsent; a
      reconnect finds no partial message. */
  predicate CanStep(version: Version, b: ByteSystem, step: ByteStep) {
    && b.sockets != []
    && var c := b.client;
    && (OnLoop(step) ==> c.finishing.None? && (b.buffer == [] || step.ClientDecodes?))
    && match step
       case MakeCall(r) => c.nextSeq < 0x1_0000_0000_0000_0000 && Sendable(r.payload)
       case WriteDone => c.writing != []
       case WriteBroke(cut) =>
         && c.writing != [] && c.pending != [] && c.pending[0] in c.sessions
         && 0 < cut <= |Last(b).up.wire| && cut <= |Frame(c.sessions[c.pending[0]].request)|
       case ServerReads(k, n) => k < |b.sockets| && b.sockets[k].up.buffer == [] && 0 < n <= |b.sockets[k].up.wire|
       case ServerDecodes(k) => k < |b.sockets| && b.sockets[k].up.buffer != [] && Survives(version, b.sockets[k].up.tail, b.sockets[k].up.buffer)
       case ServiceDone(k, i, body) => k < |b.sockets| && i < |b.sockets[k].serving| && Sendable(body)
       case ClientReads(n) => c.reading > 0 && 0 < n <= |Last(b).down|
       case ClientDecodes => b.buffer != [] && Survives(version, b.partial, b.buffer) && InTurn(c, LoopTurn(version, b.partial, b.buffer))
       case CallbackDone => c.finishing.Some?
       case ReadBroke => c.reading > 0
       case ReadStopped => c.reading > 0 && c.terminated
       case ConnectFailed => c.connecting > 0 && !c.terminated
       case Reconnected => c.connecting > 0 && (c.terminated || b.partial == [])
       case Terminated => true
  }

  /** WriteInLoop from c, with the bytes it hands to async_write. */
  function PumpBytes(b: ByteSystem, c: Client): ByteSystem
    requires b.sockets != []
  {
    var y := Last(b);
    SetLast(b, y.(up := y.up.(wire := y.up.wire + Wired(Launched(c))))).(client := WriteInLoop(c))
  }

  function DecodeUp(version: Version, y: Socket): Socket {
    var t := LoopTurn(version, y.up.tail, y.up.buffer);
    y.(up := y.up.(tail := t.tail, buffer := t.rest), serving := y.serving + if t.message.Some? then [t.message.value] else [])
  }

  /** ReceivePackage up to the callback. */
  function HandOver(b: ByteSystem, m: Message): ByteSystem {
    b.(client := TakeSession(b.client, m), done := b.done + Completed(b.client, m))
  }

  function Next(version: Version, b: ByteSystem, step: ByteStep): ByteSystem
    requires CanStep(version, b, step)
  {
    var c := b.client;
    match step
    case MakeCall(r) =>
      var m := RequestMessage(c.nextSeq, r);
      PumpBytes(b.(calls := b.calls[c.nextSeq := m]), SaveAndEnqueue(c, m))
    case WriteDone => if c.pending == [] then b.(client := c.(writing := c.writing[1..])) else PumpBytes(b, PopWritten(c))
    case WriteBroke(cut) =>
      var y := Last(b);
      SetLast(b, y.(up := y.up.(wire := y.up.wire[..|y.up.wire| - cut]))).(client := c.(writing := c.writing[1..]))
    case ServerReads(k, n) =>
      var y := b.sockets[k];
      b.(sockets := b.sockets[k := y.(up := y.up.(buffer := y.up.wire[..n], wire := y.up.wire[n..]))])
    case ServerDecodes(k) => b.(sockets := b.sockets[k := DecodeUp(version, b.sockets[k])])
    case ServiceDone(k, i, body) =>
      var y := b.sockets[k];
      var m := y.serving[i];
      b.(sockets := b.sockets[k := y.(serving := y.serving[..i] + y.serving[i + 1..], down := y.down + Frame(ResponseMessage(m, body)))],
         executions := b.executions + {Execution(m, body)})
    case ClientReads(n) => SetLast(b, Last(b).(down := Last(b).down[n..])).(buffer := Last(b).down[..n])
    case ClientDecodes =>
      var t := LoopTurn(version, b.partial, b.buffer);
      var b' := b.(partial := t.tail, buffer := t.rest);
      if t.message.Some? then HandOver(b', t.message.value) else b'
    case CallbackDone => b.(client := c.(finishing := None))
    case ReadBroke => b.(client := ReadFailed(c))
    case ReadStopped => b.(client := c.(reading := c.reading - 1))
    case ConnectFailed => b
    case Reconnected =>
      if c.terminated then b.(client := c.(connecting := c.connecting - 1))
      else
        var c' := Rebuild(c);
        b.(client := Resend(c', c'.nextSeq), sockets := b.sockets + [Socket(Pipe(Wired(ResendLaunched(c', c'.nextSeq)), [], []), [], [])])
    case Terminated => b.(client := c.(terminated := true))
  }

  predicate ByteInit(b: ByteSystem) {
    b == ByteSystem(Client(0, map[], [], false, false, b.client.autoReconnect, 1, 0, [], [], [], None),
                    [Socket(Pipe([], [], []), [], [])], [], [], map[], {}, [])
  }

  predicate ByteRun(version: Version, b: ByteSystem, steps: seq<ByteStep>)
    decreases |steps|
  {
    steps == [] || (CanStep(version, b, steps[0]) && ByteRun(version, Next(version, b, steps[0]), steps[1..]))
  }

  function After(version: Version, b: ByteSystem, steps: seq<ByteStep>): ByteSystem
    requires ByteRun(version, b, steps)
    decreases |steps|
  {
    if steps == [] then b else After(version, Next(version, b, steps[0]), steps[1..])
  }

  function CallsMade(steps: seq<ByteStep>): seq<Request> {
    if steps == [] then []
    else (if steps[0].MakeCall? then [steps[0].request] else []) + CallsMade(steps[1..])
  }

  /** The calls named by the responses that the client's read loop hands over. */
  function HandedOver(version: Version, b: ByteSystem, steps: seq<ByteStep>): set<nat>
    requires ByteRun(version, b, steps)
    decreases |steps|
  {
    if steps == [] then {}
    else
      var t := LoopTurn(version, b.partial, b.buffer);
      (if steps[0].ClientDecodes? && t.message.Some? then {SeqOf(t.message.value)} else {})
      + HandedOver(version, Next(version, b, steps[0]), steps[1..])
  }

  /** What the services of the run computed, from the requests that the server decoded. */
  function ServicesRan(version: Version, b: ByteSystem, steps: seq<ByteStep>): set<Execution>
    requires ByteRun(version, b, steps)
    decreases |steps|
  {
    if steps == [] then {}
    else RanIn(b, steps[0]) + ServicesRan(version, Next(version, b, steps[0]), steps[1..])
  }

  function RanIn(b: ByteSystem, step: ByteStep): set<Execution> {
    if step.ServiceDone? && step.socket < |b.sockets| && step.task < |b.sockets[step.socket].serving|
    then {Execution(b.sockets[step.socket].serving[step.task], step.body)} else {}
  }

  // ----- The coupling -----

  predicate HeldBefore(fifo: seq<Message>, tail: seq<Byte>) {
    if fifo == [] then tail == [] else |tail| < |Frame(fifo[0])|
  }

  /** Not yet delivered to the server: the requests on their way up, and one whose write failed. */
  function Undelivered(x: Connection): seq<Message> {
    if |x.arrived| <= |x.launched| then x.launched[|x.arrived|..] else []
  }

  function Under(p: Pipe): seq<Byte> {
    p.tail + (p.buffer + p.wire)
  }

  /** The bytes under way are the frames of what is undelivered; of a request whose write failed, a
      proper part of the frame. */
  ghost predicate CoupledUp(x: Connection, p: Pipe) {
    var fifo := Undelivered(x);
    && Under(p) <= Wired(fifo) && HeldBefore(fifo, p.tail)
    && (if |x.arrived| + |x.up| == |x.launched| then Under(p) == Wired(fifo)
        else |Wired(x.up)| <= |Under(p)| < |Wired(fifo)|)
  }

  ghost predicate SocketCoupled(x: Connection, y: Socket) {
    y.serving == x.serving && CoupledUp(x, y.up)
  }

  ghost predicate Refines(b: ByteSystem, s: System) {
    && Protocol.Connected(s) && |b.sockets| == |s.connections|
    && b.client == s.client && b.calls == s.calls && b.executions == s.executions && b.done == s.done
    && (forall k | 0 <= k < |b.sockets| :: SocketCoupled(s.connections[k], b.sockets[k]))
    && Coupled(Current(s).down, b.partial, b.buffer + Last(b).down)
    && (b.buffer != [] ==> b.client.reading > 0)
  }

  ghost predicate Good(s: System) {
    SystemInv(s) && WireInv(s)
  }

  /** The protocol step that a byte step performs; None when it only moves bytes. */
  function Image(version: Version, b: ByteSystem, step: ByteStep): Option<Step>
    requires CanStep(version, b, step)
  {
    match step
    case MakeCall(r) => Some(Call(r))
    case WriteDone => Some(Written)
    case WriteBroke(_) => Some(WriteFailed)
    case ServerReads(_, _) => None
    case ServerDecodes(k) =>
      if LoopTurn(version, b.sockets[k].up.tail, b.sockets[k].up.buffer).message.Some? then Some(ServerReceive(k)) else None
    case ServiceDone(k, i, body) => Some(ServerRespond(k, i, body))
    case ClientReads(_) => None
    case ClientDecodes => if LoopTurn(version, b.partial, b.buffer).message.Some? then Some(Receive) else None
    case CallbackDone => Some(Finish)
    case ReadBroke => Some(ReadError)
    case ReadStopped => Some(ReadAfterTerminate)
    case ConnectFailed => Some(ConnectError)
    case Reconnected => Some(ConnectDone)
    case Terminated => Some(Terminate)
  }

  ghost predicate Simulated(version: Version, b: ByteSystem, s: System, step: ByteStep)
    requires CanStep(version, b, step)
  {
    var b' := Next(version, b, step);
    match Image(version, b, step)
    case None => Refines(b', s) && RanIn(b, step) == {}
    case Some(p) =>
      && Enabled(s, p) && Refines(b', Apply(s, p))
      && (p.Receive? ==> step.ClientDecodes? && LoopTurn(version, b.partial, b.buffer).message == Some(Current(s).down[0]))
      && RanIn(b, step) == Theorems.ComputedBy(s, p)
  }

  // ----- Frames in a row -----

  lemma {:induction false} WiredAppend(a: seq<Message>, b: seq<Message>)
    ensures Wired(a + b) == Wired(a) + Wired(b)
  {
    hide Frame;
    assert FrameList(a + b) == FrameList(a) + FrameList(b);
    FlattenAppend(FrameList(a), FrameList(b));
  }

  lemma {:induction false} WiredOne(m: Message)
    ensures Wired([m]) == Frame(m)
  {
    hide Frame;
    var fs := FrameList([m]);
    assert fs == [Frame(m)] && Flatten(fs) == fs[0] + Flatten(fs[1..]);
  }

  lemma {:induction false} WiredFirst(ms: seq<Message>)
    requires ms != []
    ensures Wired(ms) == Frame(ms[0]) + Wired(ms[1..])
  {
    hide Frame, Wired;
    assert ms == [ms[0]] + ms[1..];
    WiredAppend([ms[0]], ms[1..]);
    WiredOne(ms[0]);
  }

  lemma {:induction false} WiredNone()
    ensures Wired([]) == []
  {
  }

  // ----- One turn of a read loop -----

  /** The turn either delivers the next message of the FIFO or takes all of the read. */
  lemma {:induction false} TurnRefines(version: Version, fifo: seq<Message>, tail: seq<Byte>, buffer: seq<Byte>, more: seq<Byte>)
    requires fifo != [] && ValidMessage(fifo[0]) && HeldBefore(fifo, tail) && buffer != []
    requires tail + (buffer + more) <= Wired(fifo) && Survives(version, tail, buffer)
    ensures var t, f := LoopTurn(version, tail, buffer), Frame(fifo[0]);
            && |f| <= |Wired(fifo)|
            && (if |tail| + |buffer| >= |f| then t == Turn(Some(fifo[0]), [], t.rest) && tail + (buffer + more) == f + (t.rest + more)
                else t == Turn(None, tail + buffer, []))
  {
    hide Frame, Wired, IsFrame, Take, CompletesCutMeta, Unfinished, MessageOf, LoopTurn, ValidMessage;
    var f := Frame(fifo[0]);
    WiredFirst(fifo);
    FrameRoundTrip(fifo[0]);
    assert tail + (buffer + more) == tail + buffer + more;
    StartsAlike2(tail + buffer, f, more, Wired(fifo));
    TakeFromStream(version, tail, buffer, f);
    TurnTakes(version, tail, buffer, f);
    var t := LoopTurn(version, tail, buffer);
    if |tail| + |buffer| >= |f| { assert f + t.rest + more == f + (t.rest + more); }
  }

  lemma {:induction false} StartsAlike2(a: seq<Byte>, f: seq<Byte>, more: seq<Byte>, all: seq<Byte>)
    requires f <= all && a + more <= all
    ensures a <= f || f <= a
  {
    assert a == (a + more)[..|a|] == all[..|a|] && f == all[..|f|];
    if |a| <= |f| { assert a == f[..|a|]; } else { assert f == a[..|f|]; }
  }

  lemma {:induction false} TurnTakes(version: Version, tail: seq<Byte>, buffer: seq<Byte>, f: seq<Byte>)
    requires IsFrame(f) && |tail| < |f| && buffer != [] && Unfinished(tail) && (tail + buffer <= f || f <= tail + buffer)
    requires Take(version, tail, buffer) == Bytes(if |tail| + |buffer| < |f| then |buffer| else |f| - |tail|)
    ensures var t := LoopTurn(version, tail, buffer);
            if |tail| + |buffer| >= |f| then t == Turn(Some(MessageOf(f)), [], t.rest) && tail + buffer == f + t.rest
            else t == Turn(None, tail + buffer, [])
  {
    hide Take, IsFrame, Unfinished, MessageOf;
    var n := if |tail| + |buffer| < |f| then |buffer| else |f| - |tail|;
    var g := tail + buffer[..n];
    if |tail| + |buffer| >= |f| {
      assert g == (tail + buffer)[..|f|] == f;
      FramePrefix(f, |f|);
      assert f[..|f|] == f;
      assert tail + buffer == g + buffer[n..];
    } else {
      assert buffer[..n] == buffer && buffer[n..] == [];
      assert g == f[..|g|];
      FramePrefix(f, |g|);
    }
  }

  // ----- Upwards -----

  lemma {:induction false} SocketFacts(x: Connection)
    requires SocketInv(x)
    ensures |x.arrived| <= |x.launched| && x.up <= Undelivered(x) && |Undelivered(x)| <= |x.up| + 1
    ensures forall m | m in Undelivered(x) :: ValidMessage(m)
    ensures |x.arrived| + |x.up| == |x.launched| ==> Undelivered(x) == x.up
  {
    hide ValidMessage, OnceInOrder, ServedArrived, ServedOnce;
    var fifo := Undelivered(x);
    assert x.up == (x.arrived + x.up)[|x.arrived|..] == x.launched[|x.arrived|..|x.arrived| + |x.up|];
    assert x.up == fifo[..|x.up|];
    assert forall m | m in fifo :: m in x.launched;
  }

  /** A turn of the server's loop: the next request, exactly when it is complete. */
  lemma {:induction false} DecodeUpRefines(version: Version, x: Connection, y: Socket)
    requires SocketInv(x) && SocketCoupled(x, y) && y.up.buffer != [] && Survives(version, y.up.tail, y.up.buffer)
    ensures var t := LoopTurn(version, y.up.tail, y.up.buffer);
            if t.message.Some? then x.up != [] && SocketCoupled(Deliver(x), DecodeUp(version, y))
            else SocketCoupled(x, DecodeUp(version, y))
  {
    hide SocketInv, ValidMessage, Frame, LoopTurn, Wired;
    SocketFacts(x);
    WiredNone();
    var fifo, p := Undelivered(x), y.up;
    TurnRefines(version, fifo, p.tail, p.buffer, p.wire);
    var t := LoopTurn(version, p.tail, p.buffer);
    if t.message.Some? {
      DeliveredUp(x, p, t.rest);
    } else {
      assert p.tail + p.buffer + ([] + p.wire) == p.tail + (p.buffer + p.wire);
    }
  }

  lemma {:induction false} DeliveredUp(x: Connection, p: Pipe, rest: seq<Byte>)
    requires SocketInv(x) && CoupledUp(x, p) && Undelivered(x) != []
    requires Under(p) == Frame(Undelivered(x)[0]) + (rest + p.wire)
    ensures x.up != [] && x.up[0] == Undelivered(x)[0] && CoupledUp(Deliver(x), p.(tail := [], buffer := rest))
  {
    hide SocketInv, ValidMessage, Frame, Wired;
    SocketFacts(x);
    var fifo, p' := Undelivered(x), p.(tail := [], buffer := rest);
    WiredFirst(fifo);
    WiredNone();
    assert |fifo| == 1 ==> fifo[1..] == [];
    assert x.up != [];
    WiredFirst(x.up);
    assert Undelivered(Deliver(x)) == fifo[1..];
    var f := Frame(fifo[0]);
    PrefixAfter(f, rest + p.wire, Wired(fifo[1..]));
    assert Under(p') == rest + p.wire;
    FramesAreLong(fifo[1..]);
  }

  lemma {:induction false} PrefixAfter(f: seq<Byte>, a: seq<Byte>, b: seq<Byte>)
    requires f + a <= f + b
    ensures a <= b
  {
    assert a == (f + a)[|f|..] == (f + b)[|f|..|f| + |a|] == b[..|a|];
  }

  lemma {:induction false} FramesAreLong(ms: seq<Message>)
    ensures HeldBefore(ms, [])
  {
  }

  lemma {:induction false} ArriveUp(x: Connection, p: Pipe, n: nat)
    requires CoupledUp(x, p) && p.buffer == [] && n <= |p.wire|
    ensures CoupledUp(x, p.(buffer := p.wire[..n], wire := p.wire[n..]))
  {
    hide Wired, Frame;
    assert p.wire[..n] + p.wire[n..] == p.wire && [] + p.wire == p.wire;
  }

  /** What WriteInLoop hands over goes on the wire behind everything else. */
  lemma {:induction false} LaunchUp(x: Connection, p: Pipe, launched: seq<Message>)
    requires SocketInv(x) && CoupledUp(x, p) && (launched == [] || |x.arrived| + |x.up| == |x.launched|)
    ensures CoupledUp(x.(up := x.up + launched, launched := x.launched + launched), p.(wire := p.wire + Wired(launched)))
  {
    hide SocketInv, Wired, Frame;
    SocketFacts(x);
    WiredNone();
    var x' := x.(up := x.up + launched, launched := x.launched + launched);
    if launched == [] {
      assert x' == x && p.wire + [] == p.wire;
    } else {
      assert Undelivered(x') == Undelivered(x) + launched;
      WiredAppend(Undelivered(x), launched);
      assert p.tail + (p.buffer + (p.wire + Wired(launched))) == Under(p) + Wired(launched);
      if Undelivered(x) == [] { FramesAreLong(launched); assert [] + launched == launched; }
    }
  }

  /** A broken write leaves a proper part of its frame on the wire. */
  lemma {:induction false} BreakUp(x: Connection, p: Pipe, cut: nat)
    requires SocketInv(x) && CoupledUp(x, p) && |x.arrived| + |x.up| == |x.launched| && x.launched != []
    requires 0 < cut <= |p.wire| && cut <= |Frame(x.launched[|x.launched| - 1])|
    ensures x.up != [] && CoupledUp(x.(up := x.up[..|x.up| - 1]), p.(wire := p.wire[..|p.wire| - cut]))
  {
    hide SocketInv, Wired, Frame;
    SocketFacts(x);
    WiredNone();
    assert x.up != [];
    var n := |x.up| - 1;
    var x', p' := x.(up := x.up[..n]), p.(wire := p.wire[..|p.wire| - cut]);
    assert x.up == x.up[..n] + [x.up[n]] && x.up[n] == x.launched[|x.launched| - 1];
    WiredAppend(x.up[..n], [x.up[n]]);
    WiredOne(x.up[n]);
    assert Under(p') == Under(p)[..|Under(p)| - cut];
  }

  // ----- Steps of the pump -----

  lemma {:induction false} PumpRefines(b: ByteSystem, s: System, c: Client)
    requires Refines(b.(client := s.client), s) && SocketInv(Current(s)) && (b.buffer != [] ==> c.reading > 0)
    requires CanWrite(c) ==> |Current(s).arrived| + |Current(s).up| == |Current(s).launched|
    ensures Refines(PumpBytes(b, c), Pump(s, c))
  {
    hide SocketInv, CoupledUp, Coupled, Wired, WriteInLoop, CanWrite;
    var n := |s.connections| - 1;
    assert SocketCoupled(s.connections[n], b.sockets[n]);
    LaunchedOnlyThen(c);
    LaunchUp(Current(s), Last(b).up, Launched(c));
  }

  lemma {:induction false} LaunchedOnlyThen(c: Client)
    ensures (Launched(c) != [] ==> CanWrite(c)) && WriteInLoop(c).reading == c.reading
  {
  }

  lemma {:induction false} IntactThen(s: System)
    requires Good(s) && (s.client.pending == [] || s.client.writing != [])
    ensures SocketInv(Current(s)) && |Current(s).arrived| + |Current(s).up| == |Current(s).launched|
  {
    hide SystemInv, SocketInv, Handed;
  }

  lemma {:induction false} CallSimulated(b: ByteSystem, s: System, r: Request)
    requires Refines(b, s) && Good(s) && Enabled(s, Call(r))
    ensures var m := RequestMessage(b.client.nextSeq, r);
            Refines(PumpBytes(b.(calls := b.calls[b.client.nextSeq := m]), SaveAndEnqueue(b.client, m)), Apply(s, Call(r)))
  {
    hide SocketInv, SocketCoupled, Coupled, PumpBytes, Pump, RequestMessage, SystemInv;
    var c, m := s.client, RequestMessage(s.client.nextSeq, r);
    var s1, b1 := s.(calls := s.calls[c.nextSeq := m]), b.(calls := b.calls[c.nextSeq := m]);
    QueuedIsMarked(s);
    assert SocketInv(Current(s));
    if c.pending == [] { IntactThen(s); }
    assert Refines(b1, s1);
    MoreIsNoWrite(c, m);
    PumpRefines(b1, s1, SaveAndEnqueue(c, m));
  }

  lemma {:induction false} QueuedIsMarked(s: System)
    requires SystemInv(s)
    ensures HeadMarked(s.client) && MarkInv(s.client) && QueueInv(s.client, Answered(s)) && CallInv(s.client, s.calls)
    ensures s.client.nextSeq !in s.client.pending
  {
    FreshNumber(s);
    hide MarkInv, HeadMarked, QueueInv, CallInv;
  }

  lemma {:induction false} MoreIsNoWrite(c: Client, m: Message)
    requires HeadMarked(c) && c.nextSeq !in c.pending
    ensures CanWrite(SaveAndEnqueue(c, m)) ==> c.pending == []
  {
  }

  lemma {:induction false} WrittenSimulated(b: ByteSystem, s: System)
    requires Refines(b, s) && Good(s) && Enabled(s, Written)
    ensures b.client.pending != [] && Refines(PumpBytes(b, PopWritten(b.client)), Apply(s, Written))
  {
    hide SocketInv, SocketCoupled, Coupled, PumpBytes, Pump, SystemInv;
    QueuedIsMarked(s);
    IntactThen(s);
    PumpRefines(b, s, PopWritten(s.client));
  }

  lemma {:induction false} BrokenIsLast(s: System)
    requires Good(s) && s.client.writing != []
    ensures var x, c := Current(s), s.client;
            && c.pending != [] && c.pending[0] in c.sessions && x.launched != []
            && x.launched[|x.launched| - 1] == c.sessions[c.pending[0]].request && SeqOf(x.launched[|x.launched| - 1]) == c.pending[0]
  {
    hide SystemInv, SocketInv, Intact;
    QueuedIsMarked(s);
    var c, x := s.client, Current(s);
    var q := c.sent + MarkedHead(c);
    assert q[|q| - 1] == c.pending[0];
    assert IsCall(s.calls[c.pending[0]], c.pending[0]);
  }

  /** Nothing of a request whose bytes are still on the wire is anywhere else. */
  lemma {:induction false} StillLacks(x: Connection, n: nat)
    requires SocketInv(x) && |x.arrived| + |x.up| == |x.launched| && x.up != [] && SeqOf(x.launched[|x.launched| - 1]) == n
    ensures ServerLacks(x, n)
  {
    hide SocketInv;
    LacksUp(x, n);
    LacksServed(x, n);
  }

  lemma {:induction false} LacksUp(x: Connection, n: nat)
    requires SocketInv(x) && |x.arrived| + |x.up| == |x.launched| && x.up != [] && SeqOf(x.launched[|x.launched| - 1]) == n
    ensures SeqOf(x.up[|x.up| - 1]) == n && forall i | 0 <= i < |x.up| - 1 :: SeqOf(x.up[i]) != n
  {
    hide ValidMessage, ServedArrived, ServedOnce;
    var k := |x.arrived|;
    forall i | 0 <= i < |x.up| ensures x.up[i] == x.launched[k + i] {
      assert x.up[i] == (x.arrived + x.up)[k + i];
    }
  }

  lemma {:induction false} LacksServed(x: Connection, n: nat)
    requires SocketInv(x) && |x.arrived| < |x.launched| && SeqOf(x.launched[|x.launched| - 1]) == n
    ensures forall i | 0 <= i < |x.serving| :: SeqOf(x.serving[i]) != n
    ensures forall i | 0 <= i < |x.down| :: SeqOf(x.down[i]) != n
  {
    hide OnceInOrder, Carried, ServedOnce, ValidMessage;
    ArrivedEarlier(x, n);
    forall i | 0 <= i < |x.serving| ensures SeqOf(x.serving[i]) != n { assert x.serving[i] in x.serving; }
    forall i | 0 <= i < |x.down| ensures SeqOf(x.down[i]) != n { assert x.down[i] in x.down; }
  }

  lemma {:induction false} ArrivedEarlier(x: Connection, n: nat)
    requires SocketInv(x) && |x.arrived| < |x.launched| && SeqOf(x.launched[|x.launched| - 1]) == n
    ensures forall r | r in x.arrived :: SeqOf(r) < n
  {
    hide ValidMessage, ServedArrived, ServedOnce;
    forall r | r in x.arrived ensures SeqOf(r) < n {
      var i :| 0 <= i < |x.arrived| && x.arrived[i] == r;
      assert (x.arrived + x.up)[i] == r;
      assert x.launched[i] == r;
    }
  }

  lemma {:induction false} WriteBrokeSimulated(version: Version, b: ByteSystem, s: System, cut: nat)
    requires Refines(b, s) && Good(s) && CanStep(version, b, WriteBroke(cut))
    ensures Simulated(version, b, s, WriteBroke(cut))
  {
    hide SocketInv, CoupledUp, Coupled, Good, ServerLacks, Frame;
    IntactThen(s);
    BrokenIsLast(s);
    var n := |s.connections| - 1;
    assert SocketCoupled(s.connections[n], b.sockets[n]);
    BreakUp(Current(s), Last(b).up, cut);
    StillLacks(Current(s), s.client.pending[0]);
    var s', b' := Apply(s, WriteFailed), Next(version, b, WriteBroke(cut));
    assert SocketCoupled(s'.connections[n], b'.sockets[n]);
    hide SocketCoupled;
    assert Refines(b', s');
  }

  // ----- Steps of the server -----

  /** Only one socket, and nothing of the client, changes. */
  lemma {:induction false} OneSocket(b: ByteSystem, s: System, b': ByteSystem, s': System, k: nat)
    requires Refines(b, s) && k < |b.sockets| == |b'.sockets| == |s'.connections|
    requires b' == b.(sockets := b.sockets[k := b'.sockets[k]], executions := b'.executions)
    requires s' == s.(connections := s.connections[k := s'.connections[k]], executions := b'.executions)
    requires SocketCoupled(s'.connections[k], b'.sockets[k])
    requires k == |b.sockets| - 1 ==> Coupled(s'.connections[k].down, b.partial, b.buffer + b'.sockets[k].down)
    ensures Refines(b', s')
  {
    hide SocketCoupled, Coupled;
  }

  lemma {:induction false} ServerReadsSimulated(version: Version, b: ByteSystem, s: System, k: nat, n: nat)
    requires Refines(b, s) && Good(s) && CanStep(version, b, ServerReads(k, n))
    ensures Simulated(version, b, s, ServerReads(k, n))
  {
    hide CoupledUp, Coupled, Good;
    assert SocketCoupled(s.connections[k], b.sockets[k]);
    ArriveUp(s.connections[k], b.sockets[k].up, n);
    var b' := Next(version, b, ServerReads(k, n));
    assert SocketCoupled(s.connections[k], b'.sockets[k]);
    assert s.connections == s.connections[k := s.connections[k]];
    hide SocketCoupled;
    OneSocket(b, s, b', s, k);
  }

  lemma {:induction false} ServerDecodesSimulated(version: Version, b: ByteSystem, s: System, k: nat)
    requires Refines(b, s) && Good(s) && CanStep(version, b, ServerDecodes(k))
    ensures Simulated(version, b, s, ServerDecodes(k))
  {
    hide SocketCoupled, Coupled, SocketInv, SystemInv, LoopTurn;
    assert SocketCoupled(s.connections[k], b.sockets[k]);
    assert SocketInv(s.connections[k]);
    DecodeUpRefines(version, s.connections[k], b.sockets[k]);
    var b' := Next(version, b, ServerDecodes(k));
    match Image(version, b, ServerDecodes(k)) {
      case None => OneSocket(b, s, b', s, k);
      case Some(p) => OneSocket(b, s, b', Apply(s, p), k);
    }
  }

  lemma {:induction false} RespondDown(fifo: seq<Message>, partial: seq<Byte>, buffer: seq<Byte>, down: seq<Byte>, m: Message)
    requires Coupled(fifo, partial, buffer + down)
    ensures Coupled(fifo + [m], partial, buffer + (down + Frame(m)))
  {
    hide Coupled, Frame;
    SendRefinesFifo(fifo, m, partial, buffer + down);
    assert buffer + down + Frame(m) == buffer + (down + Frame(m));
  }

  lemma {:induction false} SameUp(x: Connection, x': Connection, p: Pipe)
    requires CoupledUp(x, p) && x'.up == x.up && x'.arrived == x.arrived && x'.launched == x.launched
    ensures CoupledUp(x', p)
  {
    hide Wired, Frame;
  }

  lemma {:induction false} ServiceDoneSimulated(version: Version, b: ByteSystem, s: System, k: nat, i: nat, body: seq<Byte>)
    requires Refines(b, s) && Good(s) && CanStep(version, b, ServiceDone(k, i, body))
    ensures Simulated(version, b, s, ServiceDone(k, i, body))
  {
    hide CoupledUp, Coupled, SystemInv, WireInv, ResponseMessage, Frame;
    assert SocketCoupled(s.connections[k], b.sockets[k]);
    var s', b' := Apply(s, ServerRespond(k, i, body)), Next(version, b, ServiceDone(k, i, body));
    SameUp(s.connections[k], s'.connections[k], b.sockets[k].up);
    if k == |b.sockets| - 1 {
      RespondDown(Current(s).down, b.partial, b.buffer, Last(b).down, ResponseMessage(b.sockets[k].serving[i], body));
    }
    OneSocket(b, s, b', s', k);
  }

  // ----- Steps of the client's reading side -----

  lemma {:induction false} ClientReadsSimulated(version: Version, b: ByteSystem, s: System, n: nat)
    requires Refines(b, s) && Good(s) && CanStep(version, b, ClientReads(n))
    ensures Simulated(version, b, s, ClientReads(n))
  {
    hide SocketCoupled, Coupled, SystemInv, WireInv;
    var b', k := Next(version, b, ClientReads(n)), |b.sockets| - 1;
    var down := Last(b).down;
    assert down[..n] + down[n..] == down && [] + down == down;
    assert SocketCoupled(s.connections[k], b.sockets[k]);
    SameServing(s.connections[k], b.sockets[k], b'.sockets[k]);
  }

  lemma {:induction false} SameServing(x: Connection, y: Socket, y': Socket)
    requires SocketCoupled(x, y) && y'.up == y.up && y'.serving == y.serving
    ensures SocketCoupled(x, y')
  {
    hide CoupledUp;
  }

  lemma {:induction false} DecodeDown(version: Version, fifo: seq<Message>, partial: seq<Byte>, buffer: seq<Byte>, down: seq<Byte>)
    requires AllValid(fifo) && Coupled(fifo, partial, buffer + down) && buffer != [] && Survives(version, partial, buffer)
    ensures var t := LoopTurn(version, partial, buffer);
            if t.message.Some? then fifo != [] && t.message.value == fifo[0] && Coupled(fifo[1..], t.tail, t.rest + down)
            else Coupled(fifo, t.tail, t.rest + down)
  {
    hide Frame, LoopTurn, Wired, ValidMessage;
    WiredNone();
    WiredIs(fifo);
    if fifo != [] { WiredIs(fifo[1..]); }
    TurnRefines(version, fifo, partial, buffer, down);
    var t := LoopTurn(version, partial, buffer);
    if t.message.Some? {
      WiredFirst(fifo);
      var f := Frame(fifo[0]);
      assert t.rest + down == (f + (t.rest + down))[|f|..] == (f + Wired(fifo[1..]))[|f|..];
      assert [] + (t.rest + down) == t.rest + down;
      FramesAreLong(fifo[1..]);
    } else {
      assert partial + buffer + ([] + down) == partial + (buffer + down);
    }
  }

  lemma {:induction false} WiredIs(ms: seq<Message>)
    ensures Wired(ms) == Flatten(FrameList(ms))
  {
  }

  lemma {:induction false} ClientDecodesSimulated(version: Version, b: ByteSystem, s: System)
    requires Refines(b, s) && Good(s) && CanStep(version, b, ClientDecodes)
    ensures Simulated(version, b, s, ClientDecodes)
  {
    hide SocketCoupled, Coupled, SystemInv, WireInv, LoopTurn, AllValid;
    var k := |s.connections| - 1;
    TrafficValid(s, k);
    DecodeDown(version, Current(s).down, b.partial, b.buffer, Last(b).down);
    var t, b' := LoopTurn(version, b.partial, b.buffer), Next(version, b, ClientDecodes);
    if t.message.Some? {
      var s' := Apply(s, Receive);
      assert SocketCoupled(s.connections[k], b.sockets[k]);
      SameSocketUp(s.connections[k], s'.connections[k], b.sockets[k]);
      assert Refines(b', s');
    } else {
      assert Refines(b', s);
    }
  }

  lemma {:induction false} SameSocketUp(x: Connection, x': Connection, y: Socket)
    requires SocketCoupled(x, y) && x' == x.(down := x'.down)
    ensures SocketCoupled(x', y)
  {
    hide CoupledUp;
    SameUp(x, x', y.up);
  }

  // ----- Steps of the client alone -----

  lemma {:induction false} ReconnectedSimulated(version: Version, b: ByteSystem, s: System)
    requires Refines(b, s) && Good(s) && CanStep(version, b, Reconnected) && !b.client.terminated
    ensures Simulated(version, b, s, Reconnected)
  {
    hide SocketCoupled, Coupled, SystemInv, WireInv, Resend, ResendLaunched, Wired;
    var b', s' := Next(version, b, Reconnected), Apply(s, ConnectDone);
    NewSocket(Current(s'), Last(b'));
    forall k | 0 <= k < |b'.sockets| ensures SocketCoupled(s'.connections[k], b'.sockets[k]) {
      if k < |b.sockets| { assert s'.connections[k] == s.connections[k] && b'.sockets[k] == b.sockets[k]; }
    }
  }

  lemma {:induction false} NewSocket(x: Connection, y: Socket)
    requires x == Connection(x.up, [], [], x.up, []) && y == Socket(Pipe(Wired(x.up), [], []), [], [])
    ensures SocketCoupled(x, y) && Coupled(x.down, [], [] + y.down)
  {
    hide Frame;
    assert Undelivered(x) == x.up && Under(y.up) == Wired(x.up);
    FramesAreLong(x.up);
  }

  lemma {:induction false} ClientOnly(b: ByteSystem, s: System, c: Client)
    requires Refines(b, s) && (b.buffer != [] ==> c.reading > 0)
    ensures Refines(b.(client := c), s.(client := c))
  {
    hide SocketCoupled, Coupled;
  }

  /** Every byte step is the protocol step it performs, or moves bytes only. */
  lemma {:induction false} StepSimulated(version: Version, b: ByteSystem, s: System, step: ByteStep)
    requires Refines(b, s) && Good(s) && CanStep(version, b, step)
    ensures Simulated(version, b, s, step)
  {
    hide Refines, Good, PumpBytes, Pump, Resend, ResendLaunched, ServerLacks, Frame, LoopTurn, SaveAndEnqueue, PopWritten, RequestMessage, ResponseMessage, CompletesCutMeta, ReceivePackage, Rebuild;
    SameClient(b, s);
    var c := b.client;
    match step
    case MakeCall(r) => CallSimulated(b, s, r);
    case WriteDone => WrittenSimulated(b, s);
    case WriteBroke(cut) => WriteBrokeSimulated(version, b, s, cut);
    case ServerReads(k, n) => ServerReadsSimulated(version, b, s, k, n);
    case ServerDecodes(k) => ServerDecodesSimulated(version, b, s, k);
    case ServiceDone(k, i, body) => ServiceDoneSimulated(version, b, s, k, i, body);
    case ClientReads(n) => ClientReadsSimulated(version, b, s, n);
    case ClientDecodes => ClientDecodesSimulated(version, b, s);
    case CallbackDone => ClientOnly(b, s, c.(finishing := None));
    case ReadBroke => ClientOnly(b, s, ReadFailed(c));
    case ReadStopped => ClientOnly(b, s, c.(reading := c.reading - 1));
    case ConnectFailed =>
    case Reconnected => if c.terminated { ClientOnly(b, s, c.(connecting := c.connecting - 1)); } else { ReconnectedSimulated(version, b, s); }
    case Terminated => ClientOnly(b, s, c.(terminated := true));
  }

  lemma {:induction false} SameClient(b: ByteSystem, s: System)
    requires Refines(b, s)
    ensures b.client == s.client && Protocol.Connected(s) && b.sockets != [] && (b.buffer != [] ==> b.client.reading > 0)
  {
  }

  // ----- Runs -----

  lemma {:induction false} GoodStep(s: System, p: Step)
    requires Good(s) && Enabled(s, p)
    ensures Good(Apply(s, p))
  {
    hide SystemInv, WireInv, Apply, Enabled;
    StepKeeps(s, p);
    WireStepKeeps(s, p);
  }

  /** Every byte run is a protocol run with the same calls. */
  lemma {:induction false} RunSimulated(version: Version, b: ByteSystem, s: System, steps: seq<ByteStep>) returns (ps: seq<Step>)
    requires Refines(b, s) && Good(s) && ByteRun(version, b, steps)
    ensures ValidRun(s, ps) && Refines(After(version, b, steps), Run(s, ps)) && Theorems.Requests(ps) == CallsMade(steps)
    ensures Theorems.Received(s, ps) == HandedOver(version, b, steps) && Theorems.Computed(s, ps) == ServicesRan(version, b, steps)
    decreases |steps|
  {
    hide Refines, Good, CanStep, Next, Enabled, Apply, LoopTurn, RanIn, Theorems.ComputedBy,
         Theorems.Requests, Theorems.Received, Theorems.Computed, CallsMade, HandedOver, ServicesRan;
    if steps == [] {
      ps := [];
      NothingDone(version, b, s);
    } else {
      var step, b' := steps[0], Next(version, b, steps[0]);
      StepSimulated(version, b, s, step);
      match Image(version, b, step) {
        case None =>
          ps := RunSimulated(version, b', s, steps[1..]);
          BytesOnly(version, b, s, steps);
        case Some(p) =>
          GoodStep(s, p);
          var rest := RunSimulated(version, b', Apply(s, p), steps[1..]);
          ps := [p] + rest;
          assert ps[0] == p && ps[1..] == rest;
          OneStep(version, b, s, steps, ps);
      }
    }
  }

  lemma {:induction false} NothingDone(version: Version, b: ByteSystem, s: System)
    ensures Theorems.Requests([]) == CallsMade([]) && Theorems.Received(s, []) == HandedOver(version, b, [])
    ensures Theorems.Computed(s, []) == ServicesRan(version, b, [])
  {
  }

  /** A step that only moves bytes adds nothing to the counts. */
  lemma {:induction false} BytesOnly(version: Version, b: ByteSystem, s: System, steps: seq<ByteStep>)
    requires ByteRun(version, b, steps) && steps != [] && Image(version, b, steps[0]).None? && Simulated(version, b, s, steps[0])
    ensures var b' := Next(version, b, steps[0]);
            && CallsMade(steps) == CallsMade(steps[1..]) && HandedOver(version, b, steps) == HandedOver(version, b', steps[1..])
            && ServicesRan(version, b, steps) == ServicesRan(version, b', steps[1..])
  {
    hide Refines, CanStep, Next, LoopTurn, RanIn;
  }

  /** A step that performs a protocol step adds the same to both. */
  lemma {:induction false} OneStep(version: Version, b: ByteSystem, s: System, steps: seq<ByteStep>, ps: seq<Step>)
    requires ByteRun(version, b, steps) && steps != [] && ps != []
    requires Image(version, b, steps[0]) == Some(ps[0]) && Simulated(version, b, s, steps[0]) && ValidRun(s, ps)
    requires var b' := Next(version, b, steps[0]);
             && Theorems.Requests(ps[1..]) == CallsMade(steps[1..])
             && Theorems.Received(Apply(s, ps[0]), ps[1..]) == HandedOver(version, b', steps[1..])
             && Theorems.Computed(Apply(s, ps[0]), ps[1..]) == ServicesRan(version, b', steps[1..])
    ensures Theorems.Requests(ps) == CallsMade(steps) && Theorems.Received(s, ps) == HandedOver(version, b, steps)
    ensures Theorems.Computed(s, ps) == ServicesRan(version, b, steps)
  {
    hide Refines, CanStep, Next, Enabled, Apply, LoopTurn, RanIn, Theorems.ComputedBy;
  }

  lemma {:induction false} InitRefines(b: ByteSystem) returns (s: System)
    requires ByteInit(b)
    ensures Init(s) && Refines(b, s) && Good(s)
  {
    s := System(b.client, [Connection([], [], [], [], [])], map[], {}, []);
    WiredNone();
    NewSocket(Current(s), Last(b));
    hide SocketCoupled, Coupled, SystemInv, WireInv;
    InitHolds(s);
    WireInit(s);
  }

  /** Over bytes too, the calls whose callback has run are exactly those for which the client's read
      loop decoded a response, each of them once. */
  lemma {:induction false} EndToEndCompletion(version: Version, b0: ByteSystem, steps: seq<ByteStep>)
    requires ByteInit(b0) && ByteRun(version, b0, steps)
    ensures var b := After(version, b0, steps);
            && (set i | 0 <= i < |b.done| :: b.done[i].call) == HandedOver(version, b0, steps)
            && |b.done| == |HandedOver(version, b0, steps)|
  {
    hide Good, ByteInit, ByteRun, After, Init, ValidRun, Run, HandedOver, Theorems.Received;
    var s0 := InitRefines(b0);
    var ps := RunSimulated(version, b0, s0, steps);
    Theorems.CompletionTheorem(s0, ps);
    SameHistories(After(version, b0, steps), Run(s0, ps));
  }

  /** End to end, over bytes. For every interleaving of calls, writes that complete or break, reads of
      any size on both sides, services finishing in any order, disconnects and reconnects: each call's
      callback runs at most once, and only with a response that the server computed from the request
      of that same call. */
  lemma {:induction false} EndToEndTheorem(version: Version, b0: ByteSystem, steps: seq<ByteStep>)
    requires ByteInit(b0) && ByteRun(version, b0, steps)
    ensures var b, rs := After(version, b0, steps), CallsMade(steps);
            && (forall i, j | 0 <= i < j < |b.done| :: b.done[i].call != b.done[j].call)
            && (forall i | 0 <= i < |b.done| ::
                  && var n, m := b.done[i].call, b.done[i].response;
                  && n < |rs| && n in b.calls && Carries(b.calls[n], n, rs[n])
                  && Execution(b.calls[n], m.payload) in ServicesRan(version, b0, steps) && RepliesTo(m, b.calls[n]))
  {
    hide Good, ByteInit, ByteRun, After, Init, ValidRun, Run, CallsMade, Theorems.Requests, Refines, ServicesRan, Theorems.Computed, Theorems.Received, HandedOver;
    var s0 := InitRefines(b0);
    var ps := RunSimulated(version, b0, s0, steps);
    Theorems.CallbackTheorem(s0, ps);
    SameHistories(After(version, b0, steps), Run(s0, ps));
  }

  lemma {:induction false} SameHistories(b: ByteSystem, s: System)
    requires Refines(b, s)
    ensures b.done == s.done && b.executions == s.executions && b.calls == s.calls
  {
  }
}
