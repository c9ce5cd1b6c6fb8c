/** What each socket carries: what was handed to async_write, in which order, and what of it the
    server has (rpc/detail/rpc_channel.cc:106-155). */
module Wire {
  import opened Words
  import opened Frames
  import opened Protocol
  import opened Safety

  /** The requests of these calls, in this order. */
  ghost predicate Lists(calls: map<nat, Message>, q: seq<nat>, ms: seq<Message>) {
    |ms| == |q| && forall i | 0 <= i < |q| :: q[i] in calls && ms[i] == calls[q[i]]
  }

  /** The head of pending_ once WriteInLoop has handed it to async_write. */
  function MarkedHead(c: Client): seq<nat> {
    if c.pending != [] && c.pending[0] in c.sessions && c.sessions[c.pending[0]].isPending then [c.pending[0]] else []
  }

  /** Everything sent on the current socket and then the marked head was handed to async_write. */
  ghost predicate Handed(c: Client, calls: map<nat, Message>, launched: seq<Message>) {
    Lists(calls, c.sent + MarkedHead(c), launched)
  }

  /** In increasing call number, so none twice. */
  ghost predicate OnceInOrder(ms: seq<Message>) {
    forall i, j | 0 <= i < j < |ms| :: SeqOf(ms[i]) < SeqOf(ms[j])
  }

  /** What arrived and what is on its way is what was handed over, in order, but for at most the
      last, whose write failed. */
  ghost predicate Carried(x: Connection) {
    x.arrived + x.up <= x.launched && |x.launched| <= |x.arrived + x.up| + 1
  }

  /** Every request being served, and every answer, belongs to a request that arrived. */
  ghost predicate ServedArrived(x: Connection) {
    && (forall m | m in x.serving :: m in x.arrived)
    && (forall m | m in x.down :: exists r :: r in x.arrived && SeqOf(r) == SeqOf(m))
  }

  /** No request is served twice, or served and answered, or answered twice. */
  ghost predicate ServedOnce(x: Connection) {
    && (forall i, j | 0 <= i < j < |x.serving| :: SeqOf(x.serving[i]) != SeqOf(x.serving[j]))
    && (forall i, j | 0 <= i < |x.serving| && 0 <= j < |x.down| :: SeqOf(x.serving[i]) != SeqOf(x.down[j]))
    && (forall i, j | 0 <= i < j < |x.down| :: SeqOf(x.down[i]) != SeqOf(x.down[j]))
  }

  ghost predicate SocketInv(x: Connection) {
    OnceInOrder(x.launched) && Carried(x) && ServedArrived(x) && ServedOnce(x) && forall m | m in x.launched :: ValidMessage(m)
  }

  /** The current socket has lost the end of a frame exactly when its head is marked and no write is
      outstanding. */
  ghost predicate Intact(c: Client, x: Connection) {
    if c.writing == [] && c.pending != [] then |x.launched| == |x.arrived + x.up| + 1 else x.launched == x.arrived + x.up
  }

  ghost predicate WireInv(s: System) {
    && Protocol.Connected(s)
    && Handed(s.client, s.calls, Current(s).launched) && Intact(s.client, Current(s))
    && forall k | 0 <= k < |s.connections| :: SocketInv(s.connections[k])
  }

  // ----- The pump -----

  lemma {:induction false} HandedInOrder(c: Client, calls: map<nat, Message>, launched: seq<Message>)
    requires Handed(c, calls, launched) && c.queued == c.sent + c.pending && Ascending(c.queued)
    requires forall k | k in calls :: IsCall(calls[k], k)
    ensures OnceInOrder(launched) && forall m | m in launched :: ValidMessage(m)
  {
    var q := c.sent + MarkedHead(c);
    assert q == c.queued[..|q|];
    forall i | 0 <= i < |q| ensures SeqOf(launched[i]) == c.queued[i] && ValidMessage(launched[i]) {
      assert IsCall(calls[q[i]], q[i]);
    }
  }

  lemma {:induction false} ListsSnoc(calls: map<nat, Message>, q: seq<nat>, ms: seq<Message>, k: nat)
    requires Lists(calls, q, ms) && k in calls
    ensures Lists(calls, q + [k], ms + [calls[k]])
  {
  }

  /** WriteInLoop hands over the head when it marks it. */
  lemma {:induction false} WriteHands(c: Client, calls: map<nat, Message>, launched: seq<Message>)
    requires Handed(c, calls, launched) && CallInv(c, calls)
    ensures Handed(WriteInLoop(c), calls, launched + Launched(c))
  {
    if CanWrite(c) {
      var k := c.pending[0];
      assert MarkedHead(c) == [] && MarkedHead(WriteInLoop(c)) == [k] && c.sent + [] == c.sent;
      ListsSnoc(calls, c.sent, launched, k);
    } else {
      assert launched + Launched(c) == launched;
    }
  }

  lemma {:induction false} PumpHands(s: System, c: Client)
    requires Protocol.Connected(s) && forall k | 0 <= k < |s.connections| :: SocketInv(s.connections[k])
    requires CallInv(c, s.calls) && c.queued == c.sent + c.pending && Ascending(c.queued)
    requires Handed(c, s.calls, Current(s).launched)
    requires if CanWrite(c) then Current(s).launched == Current(s).arrived + Current(s).up else Intact(c, Current(s))
    ensures WireInv(Pump(s, c))
  {
    hide Lists;
    var x, x' := Current(s), Current(Pump(s, c));
    WriteHands(c, s.calls, x.launched);
    HandedInOrder(WriteInLoop(c), s.calls, x'.launched);
    assert x'.arrived + x'.up == x.arrived + x.up + Launched(c);
    assert Carried(x);
  }

  lemma {:induction false} SavedHanded(c: Client, calls: map<nat, Message>, m: Message, launched: seq<Message>)
    requires Handed(c, calls, launched) && MarkInv(c) && HeadMarked(c) && c.nextSeq !in calls && c.nextSeq !in c.pending
    ensures Handed(SaveAndEnqueue(c, m), calls[c.nextSeq := m], launched)
  {
    var c' := SaveAndEnqueue(c, m);
    assert MarkedHead(c') == MarkedHead(c);
  }

  lemma {:induction false} CallHands(s: System, r: Request)
    requires SystemInv(s) && WireInv(s) && Enabled(s, Call(r))
    ensures WireInv(Apply(s, Call(r)))
  {
    hide DoneInv, NetInv, StartedInv, SocketInv, RequestMessage;
    var c, x, n := s.client, Current(s), s.client.nextSeq;
    var m := RequestMessage(n, r);
    CallIsNext(s, r);
    var s1, c1 := s.(calls := s.calls[n := m]), SaveAndEnqueue(c, m);
    FreshNumber(s);
    SavedHanded(c, s.calls, m, x.launched);
    EnqueueKeepsQueue(c, m, Answered(s));
    SavedIsCall(c, s.calls, m);
    assert x == Current(s1);
    assert c.pending != [] ==> c1.pending[0] == c.pending[0] && !CanWrite(c1);
    PumpHands(s1, c1);
  }

  lemma {:induction false} CallIsNext(s: System, r: Request)
    requires Enabled(s, Call(r))
    ensures IsCall(RequestMessage(s.client.nextSeq, r), s.client.nextSeq)
  {
  }

  lemma {:induction false} PopHanded(c: Client, calls: map<nat, Message>, launched: seq<Message>)
    requires Handed(c, calls, launched) && MarkInv(c) && HeadMarked(c) && c.writing != []
    requires forall i | 0 < i < |c.pending| :: c.pending[i] != c.pending[0]
    ensures Handed(PopWritten(c), calls, launched)
  {
    var c' := PopWritten(c);
    assert c'.pending != [] ==> c'.pending[0] == c.pending[1];
    assert MarkedHead(c') == [] && MarkedHead(c) == [c.pending[0]];
  }

  lemma {:induction false} WrittenHands(s: System)
    requires SystemInv(s) && WireInv(s) && Enabled(s, Written)
    ensures s.client.pending != [] && WireInv(Apply(s, Written))
  {
    hide DoneInv, NetInv, StartedInv, SocketInv, QueueInv, MarkInv, HeadMarked, CallInv, Handed;
    var c := s.client;
    PopReady(c, s.calls, Answered(s), Current(s).launched);
    PumpHands(s, PopWritten(c));
  }

  lemma {:induction false} PopReady(c: Client, calls: map<nat, Message>, answered: set<nat>, launched: seq<Message>)
    requires QueueInv(c, answered) && MarkInv(c) && HeadMarked(c) && CallInv(c, calls) && c.writing != [] && Handed(c, calls, launched)
    ensures c.pending != []
    ensures var c' := PopWritten(c);
            && Handed(c', calls, launched) && CallInv(c', calls) && c'.queued == c'.sent + c'.pending && Ascending(c'.queued)
            && (CanWrite(c') <==> c'.pending != [])
  {
    DistinctPending(c, answered);
    PopHanded(c, calls, launched);
    PopKeeps(c, answered);
    var c' := PopWritten(c);
    assert c'.pending != [] ==> c'.pending[0] == c.pending[1];
  }

  lemma {:induction false} DistinctPending(c: Client, answered: set<nat>)
    requires QueueInv(c, answered)
    ensures forall i | 0 < i < |c.pending| :: c.pending[i] != c.pending[0]
  {
    forall i | 0 < i < |c.pending| ensures c.pending[i] != c.pending[0] {
      assert c.pending[i] == c.queued[|c.sent| + i] && c.pending[0] == c.queued[|c.sent|];
    }
  }

  lemma {:induction false} WriteFailedHands(s: System)
    requires SystemInv(s) && WireInv(s) && Enabled(s, WriteFailed)
    ensures WireInv(Apply(s, WriteFailed))
  {
    hide DoneInv, NetInv, StartedInv, CallInv, QueueInv, Lists;
    var c, x, s' := s.client, Current(s), Apply(s, WriteFailed);
    var x' := Current(s');
    assert SocketInv(x);
    assert x.arrived + x.up == x.arrived + x'.up + [x.up[|x.up| - 1]];
    assert MarkedHead(s'.client) == MarkedHead(c);
    assert SocketInv(x');
  }

  // ----- The server, the reads, reconnects -----

  lemma {:induction false} DeliverKeeps(x: Connection)
    requires SocketInv(x) && x.up != []
    ensures SocketInv(Deliver(x)) && Deliver(x).arrived + Deliver(x).up == x.arrived + x.up
  {
    hide OnceInOrder, ServedOnce, ServedArrived, ValidMessage;
    var y := Deliver(x);
    assert y.arrived + y.up == x.arrived + x.up;
    DeliverServes(x);
  }

  lemma {:induction false} DeliverServes(x: Connection)
    requires SocketInv(x) && x.up != []
    ensures ServedArrived(Deliver(x)) && ServedOnce(Deliver(x))
  {
    hide OnceInOrder, ValidMessage;
    var y, n := Deliver(x), SeqOf(x.up[0]);
    assert forall m | m in x.arrived :: m in y.arrived;
    ArrivedBefore(x);
    forall i | 0 <= i < |x.serving| ensures SeqOf(x.serving[i]) < n { assert x.serving[i] in x.serving; }
    forall j | 0 <= j < |x.down| ensures SeqOf(x.down[j]) < n { assert x.down[j] in x.down; }
  }

  /** What arrived came before what is on its way. */
  lemma {:induction false} ArrivedBefore(x: Connection)
    requires SocketInv(x) && x.up != []
    ensures forall r | r in x.arrived :: SeqOf(r) < SeqOf(x.up[0])
  {
    hide ValidMessage, ServedArrived, ServedOnce;
    var all, k := x.arrived + x.up, |x.arrived|;
    assert all[k] == x.up[0];
    forall r | r in x.arrived ensures SeqOf(r) < SeqOf(x.up[0]) {
      var i :| 0 <= i < k && x.arrived[i] == r;
      assert all[i] == r && x.launched[i] == r && x.launched[k] == x.up[0];
    }
  }

  lemma {:induction false} RespondKeeps(x: Connection, i: nat, body: seq<Byte>)
    requires SocketInv(x) && i < |x.serving| && Sendable(body)
    ensures SocketInv(x.(serving := x.serving[..i] + x.serving[i + 1..], down := x.down + [ResponseMessage(x.serving[i], body)]))
  {
    hide OnceInOrder, ServedOnce, ValidMessage;
    var m := ResponseMessage(x.serving[i], body);
    var y := x.(serving := x.serving[..i] + x.serving[i + 1..], down := x.down + [m]);
    assert x.serving[i] in x.arrived && SeqOf(m) == SeqOf(x.serving[i]);
    assert forall m | m in y.serving :: m in x.serving;
    RespondOnce(x, i, m);
    assert x.arrived + x.up == y.arrived + y.up;
  }

  lemma {:induction false} RespondOnce(x: Connection, i: nat, m: Message)
    requires ServedOnce(x) && i < |x.serving| && SeqOf(m) == SeqOf(x.serving[i])
    ensures ServedOnce(x.(serving := x.serving[..i] + x.serving[i + 1..], down := x.down + [m]))
  {
    hide SeqOf;
    var y := x.(serving := x.serving[..i] + x.serving[i + 1..], down := x.down + [m]);
    forall a | 0 <= a < |y.serving| ensures y.serving[a] == x.serving[if a < i then a else a + 1] { }
    assert forall a | 0 <= a < |x.down| :: y.down[a] == x.down[a];
  }

  /** Steps that leave the client's queue and the socket's histories alone. */
  lemma {:induction false} SocketKeeps(s: System, s': System, k: nat)
    requires WireInv(s) && k < |s.connections| && |s'.connections| == |s.connections| && s'.calls == s.calls
    requires s'.connections == s.connections[k := s'.connections[k]] && SocketInv(s'.connections[k])
    requires s'.connections[k].launched == s.connections[k].launched
    requires s'.connections[k].arrived + s'.connections[k].up == s.connections[k].arrived + s.connections[k].up
    requires s'.client.sent == s.client.sent && s'.client.pending == s.client.pending && s'.client.writing == s.client.writing
    requires MarkedHead(s'.client) == MarkedHead(s.client)
    ensures WireInv(s')
  {
    hide SocketInv, Lists;
    assert Current(s').launched == Current(s).launched;
  }

  lemma {:induction false} ServerHands(s: System, step: Step)
    requires WireInv(s) && Enabled(s, step) && (step.ServerReceive? || step.ServerRespond?)
    ensures WireInv(Apply(s, step))
  {
    hide SocketInv;
    var k := step.connection;
    if step.ServerReceive? {
      DeliverKeeps(s.connections[k]);
    } else {
      RespondKeeps(s.connections[k], step.task, step.body);
    }
    SocketKeeps(s, Apply(s, step), k);
  }

  lemma {:induction false} ReceiveHands(s: System)
    requires SystemInv(s) && WireInv(s) && Enabled(s, Receive)
    ensures WireInv(Apply(s, Receive))
  {
    hide SystemInv, Handed, Intact, SocketInv;
    var s', x, k := Apply(s, Receive), Current(s), |s.connections| - 1;
    ReceivedWasSent(s);
    ReceiveSocket(x);
    SocketKeeps(s, s', k);
  }

  lemma {:induction false} ReceiveSocket(x: Connection)
    requires SocketInv(x) && x.down != []
    ensures SocketInv(x.(down := x.down[1..]))
  {
    assert forall m | m in x.down[1..] :: m in x.down;
  }

  lemma {:induction false} ModeHands(s: System, c: Client)
    requires WireInv(s)
    requires c == s.client.(closedByPeer := c.closedByPeer, terminated := c.terminated, reading := c.reading,
                            connecting := c.connecting, finishing := c.finishing)
    ensures WireInv(s.(client := c))
  {
    hide SocketInv, Lists;
    assert MarkedHead(c) == MarkedHead(s.client);
  }

  lemma {:induction false} SessionsAreCalls(s: System)
    requires SystemInv(s)
    ensures QueueInv(s.client, Answered(s))
    ensures forall k | k in s.client.sessions ::
              k < s.client.nextSeq && k in s.calls && s.client.sessions[k].request == s.calls[k] && ValidMessage(s.calls[k])
  {
    hide MarkInv, HeadMarked, DoneInv, NetInv, StartedInv;
  }

  lemma {:induction false} ConnectDoneIs(s: System)
    requires Enabled(s, ConnectDone) && !s.client.terminated
    ensures var b, s' := Rebuild(s.client), Apply(s, ConnectDone);
            var launched := ResendLaunched(b, b.nextSeq);
            && s'.client == Resend(b, b.nextSeq) && s'.calls == s.calls
            && s'.connections == s.connections + [Connection(launched, [], [], launched, [])]
  {
    hide Resend, ResendLaunched;
  }

  lemma {:induction false} ConnectHands(s: System)
    requires SystemInv(s) && WireInv(s) && Enabled(s, ConnectDone) && !s.client.terminated
    ensures WireInv(Apply(s, ConnectDone))
  {
    hide SystemInv, SocketInv, QueueInv, MarkInv, HeadMarked, Resend, ResendLaunched, Resent, Handed, Intact, Apply, Enabled;
    var c, s' := s.client, Apply(s, ConnectDone);
    var b := Rebuild(c);
    ConnectDoneIs(s);
    SessionsAreCalls(s);
    ReconnectKeeps(c, Answered(s));
    ResentHands(b, s'.client, Current(s'), s.calls);
    forall k | 0 <= k < |s'.connections| ensures SocketInv(s'.connections[k]) {
      if k < |s.connections| { assert s'.connections[k] == s.connections[k]; }
    }
  }

  lemma {:induction false} ResentHands(b: Client, r: Client, x: Connection, calls: map<nat, Message>)
    requires Resent(b, r, x.up, b.nextSeq) && x == Connection(x.up, [], [], x.up, []) && b.sent == []
    requires forall k | k in b.sessions :: k < b.nextSeq && k in calls && b.sessions[k].request == calls[k] && ValidMessage(calls[k])
    ensures Handed(r, calls, x.launched) && Intact(r, x) && SocketInv(x)
  {
    var q := InOrder(b.sessions.Keys, b.nextSeq);
    if q != [] {
      assert q[0] in q;
      assert q[0] in r.sessions.Keys && MarkedHead(r) == [q[0]];
    }
    assert x.arrived + x.up == x.launched;
  }

  // ----- Every step, every run -----

  lemma {:induction false} WireStepKeeps(s: System, step: Step)
    requires SystemInv(s) && WireInv(s) && Enabled(s, step)
    ensures WireInv(Apply(s, step))
  {
    hide SystemInv, WireInv, Pump, Resend, ResendLaunched, SaveAndEnqueue, PopWritten, ServerLacks, ReceivePackage, Deliver;
    var c := s.client;
    match step
    case Call(r) => CallHands(s, r);
    case Written => WrittenHands(s);
    case WriteFailed => WriteFailedHands(s);
    case ServerReceive(_) => ServerHands(s, step);
    case ServerRespond(_, _, _) => ServerHands(s, step);
    case Receive => ReceiveHands(s);
    case Finish => ModeHands(s, c.(finishing := None));
    case ReadError => ModeHands(s, ReadFailed(c));
    case ReadAfterTerminate => ModeHands(s, c.(reading := c.reading - 1));
    case ConnectError =>
    case ConnectDone => if c.terminated { ModeHands(s, c.(connecting := c.connecting - 1)); } else { ConnectHands(s); }
    case Terminate => ModeHands(s, c.(terminated := true));
  }

  lemma {:induction false} WireInit(s: System)
    requires Init(s)
    ensures WireInv(s)
  {
    assert Handed(s.client, s.calls, Current(s).launched);
    assert SocketInv(s.connections[0]);
  }

  lemma {:induction false} WireRunKeeps(s: System, steps: seq<Step>)
    requires SystemInv(s) && WireInv(s) && ValidRun(s, steps)
    ensures SystemInv(Run(s, steps)) && WireInv(Run(s, steps))
    decreases |steps|
  {
    hide SystemInv, WireInv, Apply, Enabled;
    if steps != [] {
      StepKeeps(s, steps[0]);
      WireStepKeeps(s, steps[0]);
      WireRunKeeps(Apply(s, steps[0]), steps[1..]);
    }
  }
}
