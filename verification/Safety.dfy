/** What every run of the call protocol keeps, and the safety theorems that follow. */
module Safety {
  import opened Words
  import opened Metadata
  import opened Frames
  import opened Protocol

  ghost predicate Ascending(q: seq<nat>) {
    forall i, j | 0 <= i < j < |q| :: q[i] < q[j]
  }

  lemma {:induction false} AscendingSnoc(q: seq<nat>, k: nat)
    requires Ascending(q) && forall x | x in q :: x < k
    ensures Ascending(q + [k])
  {
    assert forall i | 0 <= i < |q| :: q[i] in q;
  }

  // ----- The client -----

  /** The calls whose callback has run. */
  function Answered(s: System): set<nat> {
    set i | 0 <= i < |s.done| :: s.done[i].call
  }

  /** What was queued on the current socket is what was sent and what is pending, in sequence
      number order; the outstanding sessions are those of it not answered. */
  ghost predicate QueueInv(c: Client, answered: set<nat>) {
    && c.queued == c.sent + c.pending
    && Ascending(c.queued)
    && (forall k | k in c.queued :: k < c.nextSeq)
    && (forall k :: k in c.sessions <==> k in c.queued && k !in answered)
    && (forall k | k in c.pending :: k in c.sessions)
  }

  /** Only the head of `pending` may be marked, everything sent is, and at most one write is
      outstanding, that of the marked head. */
  ghost predicate MarkInv(c: Client) {
    && (forall k | k in c.sessions && k !in c.pending :: c.sessions[k].isPending)
    && (forall i | 0 < i < |c.pending| :: c.pending[i] in c.sessions && !c.sessions[c.pending[i]].isPending)
    && (c.writing == [] || (c.pending != [] && c.writing == [c.pending[0]] && c.pending[0] in c.sessions && c.sessions[c.pending[0]].isPending))
  }

  /** WriteInLoop has run: the head is marked. */
  ghost predicate HeadMarked(c: Client) {
    c.pending != [] ==> c.pending[0] in c.sessions && c.sessions[c.pending[0]].isPending
  }

  /** Exactly one read or connect attempt is outstanding, or the channel has stopped for good. */
  ghost predicate ModeInv(c: Client) {
    && c.reading + c.connecting <= 1
    && (c.reading == 1 ==> !c.closedByPeer)
    && (c.connecting == 1 ==> c.autoReconnect && c.closedByPeer)
    && (c.reading + c.connecting == 0 ==> c.terminated || !c.autoReconnect)
  }

  ghost predicate ClientInv(c: Client, answered: set<nat>) {
    && QueueInv(c, answered) && MarkInv(c) && HeadMarked(c) && ModeInv(c)
    && (c.finishing.Some? ==> c.finishing.value.isPending)
  }

  lemma {:induction false} WriteKeeps(c: Client, answered: set<nat>)
    requires QueueInv(c, answered) && MarkInv(c)
    ensures var c' := WriteInLoop(c);
            QueueInv(c', answered) && MarkInv(c') && HeadMarked(c') && c'.sessions.Keys == c.sessions.Keys
  {
    var c' := WriteInLoop(c);
    if CanWrite(c) {
      assert c'.sessions.Keys == c.sessions.Keys;
      forall i | 0 < i < |c.pending| ensures c.pending[i] != c.pending[0] {
        assert c.pending[i] == c.queued[|c.sent| + i] && c.pending[0] == c.queued[|c.sent|];
      }
    }
  }

  lemma {:induction false} EnqueueKeepsQueue(c: Client, m: Message, answered: set<nat>)
    requires QueueInv(c, answered) && forall k | k in answered :: k < c.nextSeq
    ensures QueueInv(SaveAndEnqueue(c, m), answered)
  {
    var c' := SaveAndEnqueue(c, m);
    assert c'.queued == c'.sent + c'.pending;
    AscendingSnoc(c.queued, c.nextSeq);
  }

  lemma {:induction false} EnqueueKeepsMarks(c: Client, m: Message)
    requires MarkInv(c) && HeadMarked(c) && c.nextSeq !in c.pending && c.nextSeq !in c.sessions
    ensures MarkInv(SaveAndEnqueue(c, m))
  {
    var c' := SaveAndEnqueue(c, m);
    forall i | 0 < i < |c'.pending| ensures c'.pending[i] in c'.sessions && !c'.sessions[c'.pending[i]].isPending {
      if i < |c.pending| { assert c'.pending[i] == c.pending[i]; }
    }
  }

  lemma {:induction false} PopKeeps(c: Client, answered: set<nat>)
    requires QueueInv(c, answered) && MarkInv(c) && HeadMarked(c) && c.writing != []
    ensures QueueInv(PopWritten(c), answered) && MarkInv(PopWritten(c))
  {
    hide QueueInv;
    PopKeepsQueue(c, answered);
    var c' := PopWritten(c);
    assert c.pending == [c.pending[0]] + c'.pending;
    forall k | k in c.sessions && k !in c'.pending ensures c.sessions[k].isPending {
      if k in c.pending { assert k == c.pending[0]; }
    }
  }

  lemma {:induction false} PopKeepsQueue(c: Client, answered: set<nat>)
    requires QueueInv(c, answered) && c.pending != [] && c.writing != []
    ensures QueueInv(PopWritten(c), answered)
  {
    hide Ascending;
    var c' := PopWritten(c);
    assert c.pending == [c.pending[0]] + c'.pending;
    assert c'.queued == c'.sent + c'.pending;
  }

  // ----- Reconnecting -----

  /** The numbers below n in `keys`, in order: how a std::map iterates. */
  function InOrder(keys: set<nat>, n: nat): (q: seq<nat>)
    ensures forall k | k in q :: k in keys && k < n
  {
    if n == 0 then [] else InOrder(keys, n - 1) + if n - 1 in keys then [n - 1] else []
  }

  lemma {:induction false} InOrderIs(keys: set<nat>, n: nat)
    ensures Ascending(InOrder(keys, n))
    ensures forall k :: k in InOrder(keys, n) <==> k in keys && k < n
  {
    if n > 0 {
      InOrderIs(keys, n - 1);
      AscendingSnoc(InOrder(keys, n - 1), n - 1);
    }
  }

  /** What SendPendingSessions has done after the sessions numbered below n: they are queued in
      order, only the first is marked and its write is the only one started. */
  ghost predicate Resent(c: Client, r: Client, launched: seq<Message>, n: nat) {
    && var q := InOrder(c.sessions.Keys, n);
    && r == c.(sessions := r.sessions, pending := q, queued := q, writing := q[..if q == [] then 0 else 1])
    && r.sessions.Keys == c.sessions.Keys
    && (forall k | k in c.sessions :: r.sessions[k].request == c.sessions[k].request)
    && (forall k | k in c.sessions && k < n :: r.sessions[k].isPending <==> q != [] && k == q[0])
    && (forall k | k in c.sessions && k >= n :: r.sessions[k] == c.sessions[k])
    && launched == if q == [] then [] else [c.sessions[q[0]].request]
  }

  lemma {:induction false} ResendForm(c: Client, n: nat)
    requires c.pending == [] && c.writing == [] && c.queued == []
    ensures Resent(c, Resend(c, n), ResendLaunched(c, n), n)
  {
    hide Resent, InOrder, WriteInLoop, Launched, Enqueue, SetPending;
    if n == 0 {
      ResendNone(c);
    } else {
      var r, launched := Resend(c, n - 1), ResendLaunched(c, n - 1);
      ResendForm(c, n - 1);
      if n - 1 !in c.sessions {
        ResendAbsent(c, r, launched, n - 1);
      } else if InOrder(c.sessions.Keys, n - 1) == [] {
        ResendFirst(c, r, launched, n - 1);
      } else {
        ResendLater(c, r, launched, n - 1);
      }
    }
  }

  lemma {:induction false} ResendNone(c: Client)
    requires c.pending == [] && c.writing == [] && c.queued == []
    ensures Resent(c, c, [], 0)
  {
  }

  lemma {:induction false} ResendAbsent(c: Client, r: Client, launched: seq<Message>, k: nat)
    requires Resent(c, r, launched, k) && k !in c.sessions
    ensures k !in r.sessions && Resent(c, r, launched + [], k + 1)
  {
    assert InOrder(c.sessions.Keys, k + 1) == InOrder(c.sessions.Keys, k);
    assert launched + [] == launched;
  }

  lemma {:induction false} ResendFirst(c: Client, r: Client, launched: seq<Message>, k: nat)
    requires Resent(c, r, launched, k) && k in c.sessions && InOrder(c.sessions.Keys, k) == []
    ensures k in r.sessions
    ensures var e := Enqueue(SetPending(r, k, false), k);
            Resent(c, WriteInLoop(e), launched + Launched(e), k + 1)
  {
    hide InOrder, WriteInLoop, Launched;
    var e := Enqueue(SetPending(r, k, false), k);
    InOrderFirst(c.sessions.Keys, k);
    assert k in r.sessions.Keys;
    FirstWrite(e, k);
    assert [k][..1] == [k];
  }

  lemma {:induction false} InOrderFirst(keys: set<nat>, k: nat)
    requires k in keys && InOrder(keys, k) == []
    ensures InOrder(keys, k + 1) == [k]
  {
  }

  lemma {:induction false} FirstWrite(e: Client, k: nat)
    requires e.pending == [k] && k in e.sessions && !e.sessions[k].isPending && e.writing == []
    ensures WriteInLoop(e) == SetPending(e, k, true).(writing := [k]) && Launched(e) == [e.sessions[k].request]
    ensures WriteInLoop(e).sessions.Keys == e.sessions.Keys
  {
  }

  lemma {:induction false} ResendLater(c: Client, r: Client, launched: seq<Message>, k: nat)
    requires Resent(c, r, launched, k) && k in c.sessions && InOrder(c.sessions.Keys, k) != []
    ensures k in r.sessions
    ensures var e := Enqueue(SetPending(r, k, false), k);
            Resent(c, WriteInLoop(e), launched + Launched(e), k + 1)
  {
    var q := InOrder(c.sessions.Keys, k);
    var e := Enqueue(SetPending(r, k, false), k);
    assert q[0] in q;
    assert InOrder(c.sessions.Keys, k + 1) == q + [k] && (q + [k])[..1] == q[..1];
    assert e.pending[0] == q[0] && !CanWrite(e);
    assert e.sessions.Keys == c.sessions.Keys;
    assert launched + Launched(e) == launched;
  }

  /** A reconnect starts the new socket from all outstanding sessions. */
  lemma {:induction false} ReconnectKeeps(c: Client, answered: set<nat>)
    requires QueueInv(c, answered)
    ensures var r := Resend(Rebuild(c), c.nextSeq);
            && Resent(Rebuild(c), r, ResendLaunched(Rebuild(c), c.nextSeq), c.nextSeq)
            && QueueInv(r, answered) && MarkInv(r) && HeadMarked(r)
  {
    var b := Rebuild(c);
    var q := InOrder(b.sessions.Keys, c.nextSeq);
    ResendForm(b, c.nextSeq);
    InOrderIs(b.sessions.Keys, c.nextSeq);
    ResentIsQueued(b, Resend(b, c.nextSeq), ResendLaunched(b, c.nextSeq), answered);
    ResentIsMarked(b, Resend(b, c.nextSeq), ResendLaunched(b, c.nextSeq));
  }

  lemma {:induction false} ResentIsQueued(b: Client, r: Client, launched: seq<Message>, answered: set<nat>)
    requires Resent(b, r, launched, b.nextSeq) && b.sent == []
    requires forall k | k in b.sessions :: k < b.nextSeq && k !in answered
    ensures QueueInv(r, answered)
  {
    InOrderIs(b.sessions.Keys, b.nextSeq);
    assert r.queued == r.sent + r.pending;
    assert forall k :: k in r.sessions <==> k in r.sessions.Keys;
    assert forall k :: k in b.sessions <==> k in b.sessions.Keys;
  }

  lemma {:induction false} ResentIsMarked(b: Client, r: Client, launched: seq<Message>)
    requires Resent(b, r, launched, b.nextSeq) && forall k | k in b.sessions :: k < b.nextSeq
    ensures MarkInv(r) && HeadMarked(r)
  {
    var q := InOrder(b.sessions.Keys, b.nextSeq);
    InOrderIs(b.sessions.Keys, b.nextSeq);
    forall i | 0 <= i < |q| ensures q[i] in b.sessions && (i > 0 ==> q[i] != q[0]) {
      assert q[i] in q;
    }
    forall k | k in r.sessions ensures k in q { assert k in b.sessions.Keys; }
  }

  // ----- The whole system -----

  ghost predicate IsCall(m: Message, k: nat) {
    ValidMessage(m) && SeqOf(m) == k
  }

  /** Calls are numbered without gaps, and each session holds its own call's request. */
  ghost predicate CallInv(c: Client, calls: map<nat, Message>) {
    && (forall k: nat :: k in calls <==> k < c.nextSeq)
    && (forall k | k in calls :: IsCall(calls[k], k))
    && (forall k | k in c.sessions :: k in calls && c.sessions[k].request == calls[k])
  }

  ghost predicate IsRequest(calls: map<nat, Message>, m: Message) {
    SeqOf(m) in calls && m == calls[SeqOf(m)]
  }

  /** m is a response that the server computed from the request of the call it names. */
  ghost predicate IsAnswer(calls: map<nat, Message>, executions: set<Execution>, m: Message) {
    && SeqOf(m) in calls && Sendable(m.payload)
    && m == ResponseMessage(calls[SeqOf(m)], m.payload)
    && Execution(calls[SeqOf(m)], m.payload) in executions
  }

  /** Only requests travel up and only answers travel down. */
  ghost predicate TrafficInv(calls: map<nat, Message>, executions: set<Execution>, x: Connection) {
    && (forall i | 0 <= i < |x.up| :: IsRequest(calls, x.up[i]))
    && (forall i | 0 <= i < |x.serving| :: IsRequest(calls, x.serving[i]))
    && (forall i | 0 <= i < |x.down| :: IsAnswer(calls, executions, x.down[i]))
  }

  /** Everything on the current connection was written, or is being written, on the current socket. */
  ghost predicate StartedInv(c: Client, x: Connection) {
    && (forall i | 0 <= i < |x.up| :: SeqOf(x.up[i]) in c.sent + c.writing)
    && (forall i | 0 <= i < |x.serving| :: SeqOf(x.serving[i]) in c.sent + c.writing)
    && (forall i | 0 <= i < |x.down| :: SeqOf(x.down[i]) in c.sent + c.writing)
  }

  /** Callbacks ran at most once per call, each with that call's own answer. */
  ghost predicate DoneInv(calls: map<nat, Message>, executions: set<Execution>, done: seq<Completion>) {
    && (forall i | 0 <= i < |done| :: done[i].call == SeqOf(done[i].response) && IsAnswer(calls, executions, done[i].response))
    && (forall i, j | 0 <= i < j < |done| :: done[i].call != done[j].call)
  }

  ghost predicate NetInv(s: System) {
    forall i | 0 <= i < |s.connections| :: TrafficInv(s.calls, s.executions, s.connections[i])
  }

  ghost predicate SystemInv(s: System) {
    && Protocol.Connected(s)
    && ClientInv(s.client, Answered(s))
    && CallInv(s.client, s.calls)
    && NetInv(s)
    && StartedInv(s.client, Current(s))
    && DoneInv(s.calls, s.executions, s.done)
  }

  lemma {:induction false} InitHolds(s: System)
    requires Init(s)
    ensures SystemInv(s)
  {
    assert Answered(s) == {};
    assert ClientInv(s.client, {}) && CallInv(s.client, s.calls);
    assert NetInv(s);
  }

  // ----- Growing histories -----

  lemma {:induction false} TrafficGrows(calls: map<nat, Message>, calls': map<nat, Message>,
                                        executions: set<Execution>, executions': set<Execution>, x: Connection)
    requires TrafficInv(calls, executions, x) && executions <= executions'
    requires forall k | k in calls :: k in calls' && calls'[k] == calls[k]
    ensures TrafficInv(calls', executions', x)
  {
  }

  lemma {:induction false} HistoriesGrow(s: System, s': System)
    requires NetInv(s) && DoneInv(s.calls, s.executions, s.done)
    requires s.executions <= s'.executions && s'.connections == s.connections && s'.done == s.done
    requires forall k | k in s.calls :: k in s'.calls && s'.calls[k] == s.calls[k]
    ensures NetInv(s') && DoneInv(s'.calls, s'.executions, s'.done)
  {
    forall i | 0 <= i < |s.connections| ensures TrafficInv(s'.calls, s'.executions, s'.connections[i]) {
      TrafficGrows(s.calls, s'.calls, s.executions, s'.executions, s.connections[i]);
    }
  }

  lemma {:induction false} AnsweredAreCalls(s: System)
    requires CallInv(s.client, s.calls) && DoneInv(s.calls, s.executions, s.done)
    ensures forall k | k in Answered(s) :: k < s.client.nextSeq
  {
  }

  // ----- Steps of the pump -----

  /** What WriteInLoop launches is a request being written. */
  lemma {:induction false} LaunchedIsStarted(c: Client, calls: map<nat, Message>, executions: set<Execution>, x: Connection)
    requires CallInv(c, calls) && TrafficInv(calls, executions, x) && StartedInv(c, x)
    ensures var x' := x.(up := x.up + Launched(c), launched := x.launched + Launched(c));
            TrafficInv(calls, executions, x') && StartedInv(WriteInLoop(c), x') && CallInv(WriteInLoop(c), calls)
  {
    var x', c' := x.(up := x.up + Launched(c), launched := x.launched + Launched(c)), WriteInLoop(c);
    if CanWrite(c) {
      var k := c.pending[0];
      assert IsCall(calls[k], k);
      assert x'.up == x.up + [calls[k]] && c'.writing == c.writing + [k];
    }
  }

  /** Running WriteInLoop keeps the invariant. */
  lemma {:induction false} PumpKeeps(s: System, c: Client)
    requires Protocol.Connected(s) && QueueInv(c, Answered(s)) && MarkInv(c) && ModeInv(c)
    requires c.finishing.Some? ==> c.finishing.value.isPending
    requires CallInv(c, s.calls) && NetInv(s) && StartedInv(c, Current(s)) && DoneInv(s.calls, s.executions, s.done)
    ensures SystemInv(Pump(s, c))
  {
    hide QueueInv, MarkInv, HeadMarked, CallInv, TrafficInv, StartedInv, DoneInv;
    var s' := Pump(s, c);
    assert Answered(s') == Answered(s);
    WriteKeeps(c, Answered(s));
    LaunchedIsStarted(c, s.calls, s.executions, Current(s));
  }

  lemma {:induction false} CallKeeps(s: System, r: Request)
    requires SystemInv(s) && Enabled(s, Call(r))
    ensures SystemInv(Apply(s, Call(r)))
  {
    hide QueueInv, MarkInv, HeadMarked, CallInv, TrafficInv, StartedInv, DoneInv, NetInv, WriteInLoop, Launched;
    var c, m := s.client, RequestMessage(s.client.nextSeq, r);
    var s1, c1 := s.(calls := s.calls[c.nextSeq := m]), SaveAndEnqueue(c, m);
    FreshNumber(s);
    EnqueueKeepsQueue(c, m, Answered(s));
    EnqueueKeepsMarks(c, m);
    SavedIsCall(c, s.calls, m);
    SameSocket(c, c1, Current(s));
    assert Answered(s1) == Answered(s);
    HistoriesGrow(s, s1);
    PumpKeeps(s1, c1);
  }

  lemma {:induction false} FreshNumber(s: System)
    requires SystemInv(s)
    ensures var n := s.client.nextSeq;
            n !in s.client.pending && n !in s.client.sessions && n !in s.calls && forall k | k in Answered(s) :: k < n
  {
    AnsweredAreCalls(s);
  }

  lemma {:induction false} SameSocket(c: Client, c': Client, x: Connection)
    requires StartedInv(c, x) && c'.sent == c.sent && c'.writing == c.writing
    ensures StartedInv(c', x)
  {
  }

  lemma {:induction false} SavedIsCall(c: Client, calls: map<nat, Message>, m: Message)
    requires CallInv(c, calls) && IsCall(m, c.nextSeq)
    ensures CallInv(SaveAndEnqueue(c, m), calls[c.nextSeq := m])
  {
  }

  lemma {:induction false} WrittenKeeps(s: System)
    requires SystemInv(s) && Enabled(s, Written)
    ensures s.client.pending != [] && SystemInv(Apply(s, Written))
  {
    var c := s.client;
    assert c.pending != [];
    var c1 := PopWritten(c);
    PopKeeps(c, Answered(s));
    assert c1.sent + c1.writing == c.sent + c.writing;
    hide QueueInv, MarkInv, HeadMarked, TrafficInv, DoneInv, NetInv, WriteInLoop;
    PumpKeeps(s, c1);
  }

  lemma {:induction false} WriteFailedKeeps(s: System)
    requires SystemInv(s) && Enabled(s, WriteFailed)
    ensures SystemInv(Apply(s, WriteFailed))
  {
    hide QueueInv, MarkInv, HeadMarked, CallInv, TrafficInv, StartedInv, DoneInv, ServerLacks;
    var c, x, s' := s.client, Current(s), Apply(s, WriteFailed);
    assert Answered(s') == Answered(s);
    OneWriting(c);
    SameQueue(c, s'.client, Answered(s), s.calls);
    assert TrafficInv(s.calls, s.executions, x);
    FailedTraffic(c, x, s.calls, s.executions);
    assert Current(s') == x.(up := x.up[..|x.up| - 1]);
  }

  lemma {:induction false} OneWriting(c: Client)
    requires MarkInv(c) && c.writing != []
    ensures c.pending != [] && c.writing == [c.pending[0]] && c.writing[1..] == []
  {
  }

  /** Taking back the request whose write failed. */
  lemma {:induction false} FailedTraffic(c: Client, x: Connection, calls: map<nat, Message>, executions: set<Execution>)
    requires TrafficInv(calls, executions, x) && StartedInv(c, x) && c.pending != [] && c.writing == [c.pending[0]]
    requires ServerLacks(x, c.pending[0])
    ensures x.up != []
    ensures var x' := x.(up := x.up[..|x.up| - 1]);
            TrafficInv(calls, executions, x') && StartedInv(c.(writing := []), x')
  {
    hide IsRequest, IsAnswer;
    assert forall n | n in c.sent + c.writing && n != c.pending[0] :: n in c.sent;
    assert c.sent + [] == c.sent;
  }

  // ----- Steps of the server -----

  lemma {:induction false} ServerKeeps(s: System, s': System, k: nat, x': Connection)
    requires SystemInv(s) && k < |s.connections|
    requires s' == s.(connections := s.connections[k := x'], executions := s'.executions) && s.executions <= s'.executions
    requires TrafficInv(s'.calls, s'.executions, x')
    requires StartedInv(s.client, s.connections[k]) ==> StartedInv(s.client, x')
    ensures SystemInv(s')
  {
    hide ClientInv, CallInv, TrafficInv, StartedInv, DoneInv;
    assert Answered(s') == Answered(s);
    var s1 := s.(executions := s'.executions);
    HistoriesGrow(s, s1);
    assert NetInv(s');
  }

  lemma {:induction false} ServerReceiveKeeps(s: System, k: nat)
    requires SystemInv(s) && Enabled(s, ServerReceive(k))
    ensures SystemInv(Apply(s, ServerReceive(k)))
  {
    var s' := Apply(s, ServerReceive(k));
    var x, x' := s.connections[k], s'.connections[k];
    assert TrafficInv(s.calls, s.executions, x);
    assert TrafficInv(s'.calls, s'.executions, x') by { ServedTraffic(s.calls, s.executions, x); }
    ServerKeeps(s, s', k, x');
  }

  lemma {:induction false} ServedTraffic(calls: map<nat, Message>, executions: set<Execution>, x: Connection)
    requires TrafficInv(calls, executions, x) && x.up != []
    ensures TrafficInv(calls, executions, Deliver(x))
  {
  }

  lemma {:induction false} ServerRespondKeeps(s: System, k: nat, i: nat, body: seq<Byte>)
    requires SystemInv(s) && Enabled(s, ServerRespond(k, i, body))
    ensures SystemInv(Apply(s, ServerRespond(k, i, body)))
  {
    var s' := Apply(s, ServerRespond(k, i, body));
    var x, x' := s.connections[k], s'.connections[k];
    assert TrafficInv(s.calls, s.executions, x);
    AnsweredTraffic(s.calls, s.executions, x, i, body);
    ServerKeeps(s, s', k, x');
  }

  lemma {:induction false} AnsweredTraffic(calls: map<nat, Message>, executions: set<Execution>, x: Connection, i: nat, body: seq<Byte>)
    requires TrafficInv(calls, executions, x) && i < |x.serving| && Sendable(body)
    ensures TrafficInv(calls, executions + {Execution(x.serving[i], body)},
                       x.(serving := x.serving[..i] + x.serving[i + 1..], down := x.down + [ResponseMessage(x.serving[i], body)]))
  {
    var e := executions + {Execution(x.serving[i], body)};
    TrafficGrows(calls, calls, executions, e, x);
    assert IsRequest(calls, x.serving[i]);
    assert IsAnswer(calls, e, ResponseMessage(x.serving[i], body));
  }

  // ----- Steps of the reading side -----

  /** A response that can be received names a session that was fully written on this socket: it is
      marked, so the CHECK in ReleaseData holds, and its data is not in `pending`. */
  lemma {:induction false} ReceivedWasSent(s: System)
    requires SystemInv(s) && Enabled(s, Receive)
    ensures var n := SeqOf(Current(s).down[0]);
            && n in s.client.sent && n !in s.client.pending
            && (n in s.client.sessions ==> s.client.sessions[n].isPending)
  {
    var c, n := s.client, SeqOf(Current(s).down[0]);
    assert n in c.sent + c.writing;
    assert n in c.sent;
    var i :| 0 <= i < |c.sent| && c.sent[i] == n;
    forall j | 0 <= j < |c.pending| ensures c.pending[j] != n {
      assert c.queued[i] == n && c.queued[|c.sent| + j] == c.pending[j];
    }
  }

  lemma {:induction false} ReceiveKeeps(s: System)
    requires SystemInv(s) && Enabled(s, Receive)
    ensures SystemInv(Apply(s, Receive))
  {
    hide QueueInv, MarkInv, HeadMarked, CallInv, DoneInv;
    var s', x := Apply(s, Receive), Current(s);
    var x' := x.(down := x.down[1..]);
    ReceivedWasSent(s);
    assert TrafficInv(s.calls, s.executions, x) && IsAnswer(s.calls, s.executions, x.down[0]);
    assert TrafficInv(s.calls, s.executions, x') && StartedInv(s.client, x');
    assert NetInv(s') by { hide TrafficInv; }
    if SeqOf(x.down[0]) in s.client.sessions {
      ReleaseKeeps(s, x.down[0]);
    } else {
      assert s.done + [] == s.done && Answered(s') == Answered(s);
    }
  }

  /** Erasing the session and running its callback. */
  lemma {:induction false} ReleaseKeeps(s: System, m: Message)
    requires ClientInv(s.client, Answered(s)) && DoneInv(s.calls, s.executions, s.done) && CallInv(s.client, s.calls)
    requires SeqOf(m) in s.client.sessions && SeqOf(m) !in s.client.pending && IsAnswer(s.calls, s.executions, m)
    ensures var c, n, done := s.client, SeqOf(m), s.done + [Completion(SeqOf(m), m)];
            var c' := c.(sessions := c.sessions - {n}, finishing := Some(c.sessions[n]));
            && ClientInv(c', Answered(s.(done := done))) && DoneInv(s.calls, s.executions, done)
            && CallInv(c', s.calls)
  {
    hide QueueInv, MarkInv, HeadMarked, CallInv, DoneInv, IsAnswer;
    var c, n, done := s.client, SeqOf(m), s.done + [Completion(SeqOf(m), m)];
    var a, a' := Answered(s), Answered(s.(done := done));
    assert a' == a + {n} by {
      assert forall i | 0 <= i < |s.done| :: done[i] == s.done[i];
      assert done[|s.done|].call == n;
    }
    ReleasedQueue(c, n, a, s.calls);
    ReleasedDone(s, m);
  }

  lemma {:induction false} ReleasedQueue(c: Client, n: nat, answered: set<nat>, calls: map<nat, Message>)
    requires QueueInv(c, answered) && MarkInv(c) && HeadMarked(c) && CallInv(c, calls) && n in c.sessions && n !in c.pending
    ensures n !in answered && c.sessions[n].isPending
    ensures var c' := c.(sessions := c.sessions - {n}, finishing := Some(c.sessions[n]));
            QueueInv(c', answered + {n}) && MarkInv(c') && HeadMarked(c') && CallInv(c', calls)
  {
    hide Ascending, IsCall;
  }

  lemma {:induction false} ReleasedDone(s: System, m: Message)
    requires DoneInv(s.calls, s.executions, s.done) && IsAnswer(s.calls, s.executions, m) && SeqOf(m) !in Answered(s)
    ensures DoneInv(s.calls, s.executions, s.done + [Completion(SeqOf(m), m)])
  {
    hide IsAnswer;
    forall i | 0 <= i < |s.done| ensures s.done[i].call != SeqOf(m) { assert s.done[i].call in Answered(s); }
  }

  /** Steps that change only flags and the counts of reads and connects. */
  lemma {:induction false} ModeKeeps(s: System, c: Client)
    requires SystemInv(s) && ModeInv(c) && (c.finishing.Some? ==> c.finishing.value.isPending)
    requires c == s.client.(closedByPeer := c.closedByPeer, terminated := c.terminated, reading := c.reading,
                            connecting := c.connecting, finishing := c.finishing)
    ensures SystemInv(s.(client := c))
  {
    hide QueueInv, MarkInv, HeadMarked, CallInv, TrafficInv, StartedInv, DoneInv;
    assert Answered(s.(client := c)) == Answered(s);
    SameQueue(s.client, c, Answered(s), s.calls);
    SameSocket(s.client, c, Current(s));
  }

  lemma {:induction false} SameQueue(c: Client, c': Client, answered: set<nat>, calls: map<nat, Message>)
    requires QueueInv(c, answered) && HeadMarked(c) && MarkInv(c) && CallInv(c, calls)
    requires c'.nextSeq == c.nextSeq && c'.sessions == c.sessions && c'.pending == c.pending && c'.queued == c.queued && c'.sent == c.sent
    requires c'.writing == c.writing || c'.writing == []
    ensures QueueInv(c', answered) && HeadMarked(c') && MarkInv(c') && CallInv(c', calls)
  {
    hide Ascending, IsCall;
  }

  lemma {:induction false} ConnectDoneKeeps(s: System)
    requires SystemInv(s) && Enabled(s, ConnectDone) && !s.client.terminated
    ensures SystemInv(Apply(s, ConnectDone))
  {
    hide QueueInv, MarkInv, HeadMarked, TrafficInv, DoneInv, CallInv, StartedInv, Resent, Resend, ResendLaunched;
    var c, s' := s.client, Apply(s, ConnectDone);
    var b := Rebuild(c);
    var launched := ResendLaunched(b, c.nextSeq);
    var x := Connection(launched, [], [], launched, []);
    assert s'.client == Resend(b, c.nextSeq) && s'.connections == s.connections + [x];
    ReconnectKeeps(c, Answered(s));
    assert Answered(s') == Answered(s);
    RebuildKeepsCalls(c, s.calls);
    ResentTraffic(b, s'.client, x, c.nextSeq, s.calls, s.executions);
    assert NetInv(s');
  }

  lemma {:induction false} RebuildKeepsCalls(c: Client, calls: map<nat, Message>)
    requires CallInv(c, calls)
    ensures CallInv(Rebuild(c), calls)
  {
  }

  lemma {:induction false} ResentTraffic(b: Client, r: Client, x: Connection, n: nat, calls: map<nat, Message>, executions: set<Execution>)
    requires Resent(b, r, x.up, n) && x.serving == [] && x.down == [] && CallInv(b, calls) && b.sent == []
    ensures TrafficInv(calls, executions, x) && StartedInv(r, x) && CallInv(r, calls)
    ensures r.reading == b.reading && r.connecting == b.connecting && r.finishing == b.finishing
    ensures r.terminated == b.terminated && r.autoReconnect == b.autoReconnect && r.closedByPeer == b.closedByPeer
  {
    var q := InOrder(b.sessions.Keys, n);
    if q != [] {
      assert q[0] in q;
      assert IsCall(calls[q[0]], q[0]);
      assert r.writing == [q[0]] && x.up == [calls[q[0]]];
    }
    forall k | k in r.sessions ensures k in calls && r.sessions[k].request == calls[k] {
      assert k in b.sessions.Keys;
    }
  }

  // ----- Every step, every run -----

  lemma {:induction false} StepKeeps(s: System, step: Step)
    requires SystemInv(s) && Enabled(s, step)
    ensures SystemInv(Apply(s, step))
  {
    hide QueueInv, MarkInv, HeadMarked, CallInv, NetInv, StartedInv, DoneInv, Resend, ResendLaunched, Pump, SaveAndEnqueue, PopWritten, Rebuild, ServerLacks, RequestMessage, ResponseMessage;
    var c := s.client;
    match step
    case Call(r) => CallKeeps(s, r);
    case Written => WrittenKeeps(s);
    case WriteFailed => WriteFailedKeeps(s);
    case ServerReceive(k) => ServerReceiveKeeps(s, k);
    case ServerRespond(k, i, body) => ServerRespondKeeps(s, k, i, body);
    case Receive => ReceiveKeeps(s);
    case Finish => ModeKeeps(s, c.(finishing := None));
    case ReadError => ModeKeeps(s, ReadFailed(c));
    case ReadAfterTerminate => ModeKeeps(s, c.(reading := c.reading - 1));
    case ConnectError =>
    case ConnectDone => if c.terminated { ModeKeeps(s, c.(connecting := c.connecting - 1)); } else { ConnectDoneKeeps(s); }
    case Terminate => ModeKeeps(s, c.(terminated := true));
  }

  lemma {:induction false} RunKeeps(s: System, steps: seq<Step>)
    requires SystemInv(s) && ValidRun(s, steps)
    ensures SystemInv(Run(s, steps))
    decreases |steps|
  {
    if steps != [] {
      StepKeeps(s, steps[0]);
      RunKeeps(Apply(s, steps[0]), steps[1..]);
    }
  }
}
