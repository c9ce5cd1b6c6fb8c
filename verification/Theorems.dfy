/** The safety theorems of the call protocol, over every run from the first connection: any calls,
    any order of server completions, any number of failed writes, disconnects and reconnects. */
module Theorems {
  import opened Words
  import opened Metadata
  import opened Frames
  import opened Streams
  import opened Protocol
  import opened Safety
  import opened Wire

  ghost predicate Reachable(s: System) {
    exists s0: System, steps: seq<Step> :: Init(s0) && ValidRun(s0, steps) && Run(s0, steps) == s
  }

  lemma {:induction false} ReachableKeeps(s: System)
    requires Reachable(s)
    ensures SystemInv(s)
  {
    var s0, steps :| Init(s0) && ValidRun(s0, steps) && Run(s0, steps) == s;
    InitHolds(s0);
    RunKeeps(s0, steps);
  }

  lemma {:induction false} ReachableCarries(s: System)
    requires Reachable(s)
    ensures WireInv(s)
  {
    hide SystemInv, WireInv, Run, ValidRun;
    var s0, steps :| Init(s0) && ValidRun(s0, steps) && Run(s0, steps) == s;
    InitHolds(s0);
    WireInit(s0);
    WireRunKeeps(s0, steps);
  }

  // ----- Callbacks -----

  /** The requests passed to CallMethod, in order. */
  function Requests(steps: seq<Step>): seq<Request> {
    if steps == [] then []
    else (if steps[0].Call? then [steps[0].request] else []) + Requests(steps[1..])
  }

  /** Call number k was made with request r. */
  ghost predicate CalledWith(s: System, k: nat, r: Request) {
    k < s.client.nextSeq && k in s.calls && Carries(s.calls[k], k, r)
  }

  /** The history `calls` is what the run's Call steps asked for, numbered in order. */
  lemma {:induction false} CallsAreRequests(s: System, steps: seq<Step>)
    requires ValidRun(s, steps)
    ensures var s', rs, n := Run(s, steps), Requests(steps), s.client.nextSeq;
            && s'.client.nextSeq == n + |rs|
            && (forall k, r | CalledWith(s, k, r) :: CalledWith(s', k, r))
            && (forall i | 0 <= i < |rs| :: CalledWith(s', n + i, rs[i]))
    decreases |steps|
  {
    hide Enabled, Apply, CalledWith;
    if steps != [] {
      var s1, step := Apply(s, steps[0]), steps[0];
      var n, rs, rs1 := s.client.nextSeq, Requests(steps), Requests(steps[1..]);
      StepNumbers(s, step);
      CallsAreRequests(s1, steps[1..]);
      if step.Call? {
        assert rs == [step.request] + rs1;
        forall i | 0 < i < |rs| ensures CalledWith(Run(s, steps), n + i, rs[i]) {
          assert rs[i] == rs1[i - 1] && s1.client.nextSeq + (i - 1) == n + i;
        }
      } else {
        assert rs == rs1;
      }
    }
  }

  lemma {:induction false} StepNumbers(s: System, step: Step)
    requires Enabled(s, step)
    ensures var s', n := Apply(s, step), s.client.nextSeq;
            && s'.client.nextSeq == (if step.Call? then n + 1 else n)
            && (forall k, r | CalledWith(s, k, r) :: CalledWith(s', k, r))
            && (step.Call? ==> CalledWith(s', n, step.request))
  {
    if step.ConnectDone? && !s.client.terminated { ResendForm(Rebuild(s.client), s.client.nextSeq); }
  }

  /** In every run, each call's callback runs at most once, and only with a response that the
      server computed from the request of that same call. */
  lemma {:induction false} CallbackTheorem(s0: System, steps: seq<Step>)
    requires Init(s0) && ValidRun(s0, steps)
    ensures var s, rs := Run(s0, steps), Requests(steps);
            && (forall i, j | 0 <= i < j < |s.done| :: s.done[i].call != s.done[j].call)
            && (forall i | 0 <= i < |s.done| ::
                  && var n, m := s.done[i].call, s.done[i].response;
                  && n < |rs| && n in s.calls && Carries(s.calls[n], n, rs[n])
                  && Execution(s.calls[n], m.payload) in Computed(s0, steps) && RepliesTo(m, s.calls[n]))
  {
    hide ClientInv, TrafficInv, StartedInv, Run, Requests;
    InitHolds(s0);
    RunKeeps(s0, steps);
    CallsAreRequests(s0, steps);
    ExecutionsAreComputed(s0, steps);
    var s, rs := Run(s0, steps), Requests(steps);
    forall i | 0 <= i < |s.done| ensures s.done[i].call < |rs| && CalledWith(s, s.done[i].call, rs[s.done[i].call]) {
      assert s.done[i].call in s.calls;
      assert CalledWith(s, 0 + s.done[i].call, rs[s.done[i].call]);
    }
  }

  // ----- The server, counted from the steps -----

  /** What the services of the run computed: for each ServerRespond step, its request and its body. */
  function Computed(s: System, steps: seq<Step>): set<Execution>
    requires ValidRun(s, steps)
    decreases |steps|
  {
    if steps == [] then {}
    else ComputedBy(s, steps[0]) + Computed(Apply(s, steps[0]), steps[1..])
  }

  function ComputedBy(s: System, step: Step): set<Execution>
    requires Enabled(s, step)
  {
    if step.ServerRespond? then {Execution(s.connections[step.connection].serving[step.task], step.body)} else {}
  }

  lemma {:induction false} ExecutionsAreComputed(s: System, steps: seq<Step>)
    requires ValidRun(s, steps)
    ensures Run(s, steps).executions == s.executions + Computed(s, steps)
    decreases |steps|
  {
    hide Enabled, Apply, ComputedBy;
    if steps != [] {
      StepComputes(s, steps[0]);
      ExecutionsAreComputed(Apply(s, steps[0]), steps[1..]);
    }
  }

  lemma {:induction false} StepComputes(s: System, step: Step)
    requires Enabled(s, step)
    ensures Apply(s, step).executions == s.executions + ComputedBy(s, step)
  {
    hide WriteInLoop, Launched, Resend, ResendLaunched, ServerLacks, RequestMessage, ResponseMessage;
  }

  /** How many requests reached the services of connection k, and how many were answered. */
  function ServerReceives(steps: seq<Step>, k: nat): nat {
    if steps == [] then 0 else (if steps[0] == ServerReceive(k) then 1 else 0) + ServerReceives(steps[1..], k)
  }

  function ServerResponds(steps: seq<Step>, k: nat): nat {
    if steps == [] then 0
    else (if steps[0].ServerRespond? && steps[0].connection == k then 1 else 0) + ServerResponds(steps[1..], k)
  }

  function ServingCount(s: System, k: nat): nat {
    if k < |s.connections| then |s.connections[k].serving| else 0
  }

  /** The requests being served are those received less those answered. */
  lemma {:induction false} ServingTheorem(s: System, steps: seq<Step>, k: nat)
    requires ValidRun(s, steps)
    ensures ServingCount(Run(s, steps), k) == ServingCount(s, k) + ServerReceives(steps, k) - ServerResponds(steps, k)
    decreases |steps|
  {
    hide Enabled, Apply, ServingCount;
    if steps != [] {
      StepServes(s, steps[0], k);
      ServingTheorem(Apply(s, steps[0]), steps[1..], k);
    }
  }

  lemma {:induction false} StepServes(s: System, step: Step, k: nat)
    requires Enabled(s, step)
    ensures ServingCount(Apply(s, step), k) == ServingCount(s, k) + (if step == ServerReceive(k) then 1 else 0)
                                               - (if step.ServerRespond? && step.connection == k then 1 else 0)
  {
    hide WriteInLoop, Launched, Resend, ResendLaunched, ServerLacks, RequestMessage, ResponseMessage, TakeSession, Completed;
  }

  /** Every request that the server serves, on any connection, is that of the call it names. */
  lemma {:induction false} ServedTheorem(s0: System, steps: seq<Step>, k: nat, i: nat)
    requires Init(s0) && ValidRun(s0, steps)
    requires k < |Run(s0, steps).connections| && i < |Run(s0, steps).connections[k].serving|
    ensures var m, rs := Run(s0, steps).connections[k].serving[i], Requests(steps);
            SeqOf(m) < |rs| && Carries(m, SeqOf(m), rs[SeqOf(m)])
  {
    hide ClientInv, StartedInv, DoneInv, Run, Requests, ValidRun;
    InitHolds(s0);
    RunKeeps(s0, steps);
    CallsAreRequests(s0, steps);
    var s, rs := Run(s0, steps), Requests(steps);
    assert TrafficInv(s.calls, s.executions, s.connections[k]);
    var n := SeqOf(s.connections[k].serving[i]);
    assert IsRequest(s.calls, s.connections[k].serving[i]);
    assert CalledWith(s, 0 + n, rs[n]);
  }

  /** Handling a response to an outstanding call runs its callback with that very response and
      removes its session; any other response changes neither the callbacks nor the sessions. */
  lemma {:induction false} ReceiveTheorem(s: System)
    requires Reachable(s) && Enabled(s, Receive)
    ensures var m, s' := Current(s).down[0], Apply(s, Receive);
            var n := SeqOf(m);
            if n in s.client.sessions then
              && s'.done == s.done + [Completion(n, m)]
              && s'.client.sessions == s.client.sessions - {n} && s'.client.finishing == Some(s.client.sessions[n])
            else
              && n in Answered(s)
              && s'.done == s.done && s'.client.sessions == s.client.sessions && s'.client.finishing == s.client.finishing
  {
    hide Reachable, SystemInv;
    ReachableKeeps(s);
    AnsweredOrOutstanding(s);
  }

  lemma {:induction false} AnsweredOrOutstanding(s: System)
    requires SystemInv(s) && Enabled(s, Receive)
    ensures var n := SeqOf(Current(s).down[0]); n in s.client.sessions <==> n !in Answered(s)
  {
    hide SystemInv, QueueInv;
    ReceivedWasSent(s);
    QueueOf(s);
    SentIsQueued(s.client, Answered(s));
  }

  lemma {:induction false} SentIsQueued(c: Client, answered: set<nat>)
    requires QueueInv(c, answered)
    ensures forall k | k in c.sent :: k in c.sessions <==> k !in answered
  {
    assert forall k | k in c.sent :: k in c.queued;
  }

  /** The calls named by the responses that the run's Receive steps handle. */
  function Received(s: System, steps: seq<Step>): set<nat>
    requires ValidRun(s, steps)
    decreases |steps|
  {
    if steps == [] then {}
    else (if steps[0].Receive? then {SeqOf(Current(s).down[0])} else {}) + Received(Apply(s, steps[0]), steps[1..])
  }

  /** Exactly once: in every run, the calls whose callback has run are the calls for which a response
      was received, each of them once. */
  lemma {:induction false} CompletionTheorem(s0: System, steps: seq<Step>)
    requires Init(s0) && ValidRun(s0, steps)
    ensures var s := Run(s0, steps);
            && (set i | 0 <= i < |s.done| :: s.done[i].call) == Received(s0, steps)
            && |s.done| == |Received(s0, steps)|
  {
    hide SystemInv, Run, Received, ValidRun;
    InitHolds(s0);
    CompletionGrows(s0, steps);
    assert Answered(s0) == {};
    RunKeeps(s0, steps);
    DistinctCount(Run(s0, steps));
  }

  lemma {:induction false} CompletionGrows(s: System, steps: seq<Step>)
    requires SystemInv(s) && ValidRun(s, steps)
    ensures Answered(Run(s, steps)) == Answered(s) + Received(s, steps)
    decreases |steps|
  {
    hide SystemInv, Apply, Enabled, Answered;
    if steps != [] {
      StepKeeps(s, steps[0]);
      StepAnswers(s, steps[0]);
      CompletionGrows(Apply(s, steps[0]), steps[1..]);
    }
  }

  lemma {:induction false} StepAnswers(s: System, step: Step)
    requires SystemInv(s) && Enabled(s, step)
    ensures Answered(Apply(s, step)) == Answered(s) + if step.Receive? then {SeqOf(Current(s).down[0])} else {}
  {
    hide SystemInv, WriteInLoop, Launched, Resend, ResendLaunched, ServerLacks, RequestMessage, ResponseMessage;
    if step.Receive? {
      AnsweredOrOutstanding(s);
      var s', n := Apply(s, Receive), SeqOf(Current(s).down[0]);
      if n in s.client.sessions {
        assert forall i | 0 <= i < |s.done| :: s'.done[i] == s.done[i];
        assert s'.done[|s.done|].call == n;
      } else {
        assert s'.done == s.done + [] == s.done;
      }
      assert Answered(s') == Answered(s) + {n};
    }
  }

  lemma {:induction false} DistinctCount(s: System)
    requires SystemInv(s)
    ensures |Answered(s)| == |s.done|
  {
    DistinctDone(s);
    CountCalls(s.done);
  }

  lemma {:induction false} DistinctDone(s: System)
    requires SystemInv(s)
    ensures forall i, j | 0 <= i < j < |s.done| :: s.done[i].call != s.done[j].call
  {
    hide ClientInv, CallInv, NetInv, StartedInv, IsAnswer;
  }

  lemma {:induction false} CountCalls(done: seq<Completion>)
    requires forall i, j | 0 <= i < j < |done| :: done[i].call != done[j].call
    ensures |set i | 0 <= i < |done| :: done[i].call| == |done|
  {
    var all := set i | 0 <= i < |done| :: done[i].call;
    if done != [] {
      var n := |done| - 1;
      var before := set i | 0 <= i < |done[..n]| :: done[..n][i].call;
      CountCalls(done[..n]);
      assert all == before + {done[n].call} by {
        forall i | 0 <= i < n ensures done[i].call in before { assert done[..n][i] == done[i]; }
      }
    }
  }

  // ----- Sessions and the write pump -----

  /** A response that can be received names a session fully written on the current socket, so the
      CHECK in ReleaseData holds when ReceivePackage reaches it, even if the callback made calls in
      between, and no data that it frees is in pending_. */
  lemma {:induction false} ReleaseTheorem(s: System)
    requires Reachable(s)
    ensures Enabled(s, Receive) ==>
              var n := SeqOf(Current(s).down[0]);
              n in s.client.sent && n !in s.client.pending && (n in s.client.sessions ==> s.client.sessions[n].isPending)
    ensures Enabled(s, Finish) ==> s.client.finishing.value.isPending
    ensures forall k | k in s.client.pending :: k in s.client.sessions
  {
    ReachableKeeps(s);
    if Enabled(s, Receive) { ReceivedWasSent(s); }
  }

  /** Why write completions must run first: handling the next response leaves only live data in
      pending_ exactly when it does not overtake the completion of its own request's write. */
  lemma {:induction false} OvertakingTheorem(s: System)
    requires Reachable(s) && Protocol.Connected(s)
    requires s.client.finishing.None? && s.client.reading > 0 && Current(s).down != []
    ensures (forall k | k in ReceivePackage(s).client.pending :: k in ReceivePackage(s).client.sessions)
            <==> Enabled(s, Receive)
  {
    hide Reachable;
    ReachableKeeps(s);
    var c, n := s.client, SeqOf(Current(s).down[0]);
    if Enabled(s, Receive) {
      ReceivedWasSent(s);
    } else {
      assert c.pending[0] == n && n in c.sessions;
      assert n in ReceivePackage(s).client.pending && n !in ReceivePackage(s).client.sessions;
    }
  }

  /** The other case is reachable: the server may answer before the client's loop has handled the
      completion of the write. */
  lemma {:induction false} OvertakingHappens(r: Request, body: seq<Byte>) returns (s: System)
    requires Sendable(r.payload) && Sendable(body)
    ensures Reachable(s) && Protocol.Connected(s)
    ensures s.client.finishing.None? && s.client.reading > 0 && Current(s).down != []
    ensures !Enabled(s, Receive) && exists k :: k in ReceivePackage(s).client.pending && k !in ReceivePackage(s).client.sessions
  {
    hide Apply, Enabled, Reachable, ReceivePackage, Init;
    var m := RequestMessage(0, r);
    var s0, s1 := FirstCall(r);
    var s2 := ServedAtOnce(s1, m);
    s := AnsweredAtOnce(s2, m, body);
    ThreeSteps(s0, s1, s2, s, [Call(r), ServerReceive(0), ServerRespond(0, 0, body)]);
    RunReaches(s0, [Call(r), ServerReceive(0), ServerRespond(0, 0, body)]);
    NotEnabled(s);
  }

  lemma {:induction false} RunReaches(s0: System, steps: seq<Step>)
    requires Init(s0) && ValidRun(s0, steps)
    ensures Reachable(Run(s0, steps))
  {
  }

  lemma {:induction false} FirstCall(r: Request) returns (s0: System, s1: System)
    requires Sendable(r.payload)
    ensures Init(s0) && Enabled(s0, Call(r)) && s1 == Apply(s0, Call(r))
    ensures var m := RequestMessage(0, r); s1.connections == [Connection([m], [], [], [m], [])]
    ensures s1.client.pending == [0] && s1.client.writing == [0] && s1.client.finishing.None? && s1.client.reading == 1
    ensures 0 in s1.client.sessions && s1.client.sessions.Keys == {0} && s1.done == []
  {
    var c := Client(0, map[], [], false, false, true, 1, 0, [], [], [], None);
    s0 := System(c, [Connection([], [], [], [], [])], map[], {}, []);
    s1 := Apply(s0, Call(r));
    var m := RequestMessage(0, r);
    var c1 := SaveAndEnqueue(c, m);
    assert CanWrite(c1) && Launched(c1) == [m];
    assert Current(s1) == Connection([m], [], [], [m], []);
  }

  lemma {:induction false} ServedAtOnce(s1: System, m: Message) returns (s2: System)
    requires s1.connections == [Connection([m], [], [], [m], [])]
    ensures Enabled(s1, ServerReceive(0)) && s2 == Apply(s1, ServerReceive(0))
    ensures s2.client == s1.client && s2.done == s1.done && s2.connections == [Connection([], [m], [], [m], [m])]
  {
    s2 := Apply(s1, ServerReceive(0));
    assert s2.connections[0] == Connection([], [m], [], [m], [m]);
  }

  lemma {:induction false} AnsweredAtOnce(s2: System, m: Message, body: seq<Byte>) returns (s3: System)
    requires s2.connections == [Connection([], [m], [], [m], [m])] && Sendable(body)
    ensures Enabled(s2, ServerRespond(0, 0, body)) && s3 == Apply(s2, ServerRespond(0, 0, body))
    ensures s3.client == s2.client && s3.done == s2.done && s3.connections == [Connection([], [], [ResponseMessage(m, body)], [m], [m])]
  {
    s3 := Apply(s2, ServerRespond(0, 0, body));
    assert s3.connections[0] == Connection([], [], [ResponseMessage(m, body)], [m], [m]);
  }

  /** A call can complete: made, written, served, answered, received. */
  lemma {:induction false} CallCanComplete(r: Request, body: seq<Byte>) returns (s0: System, steps: seq<Step>)
    requires Sendable(r.payload) && Sendable(body)
    ensures Init(s0) && ValidRun(s0, steps) && Requests(steps) == [r]
    ensures var s := Run(s0, steps);
            |s.done| == 1 && s.done[0].call == 0 && s.done[0].response.payload == body && s.client.sessions == map[]
  {
    hide Apply, Enabled, Init, ReceivePackage;
    var m := RequestMessage(0, r);
    var s1, s2, s3, s4, s5: System;
    s0, s1 := FirstCall(r);
    s2 := WrittenAtOnce(s1);
    s3 := ServedAtOnce(s2, m);
    s4 := AnsweredAtOnce(s3, m, body);
    s5 := ReceivedAtOnce(s4, m, body);
    steps := [Call(r), Written, ServerReceive(0), ServerRespond(0, 0, body), Receive];
    var first, rest := steps[..2], steps[2..];
    assert rest[0] == ServerReceive(0) && rest[1] == ServerRespond(0, 0, body) && rest[2] == Receive;
    ThreeSteps(s2, s3, s4, s5, rest);
    TwoMore(s0, s1, s2, steps);
    CountRequests(r, body);
  }

  lemma {:induction false} CountRequests(r: Request, body: seq<Byte>)
    ensures Requests([Call(r), Written, ServerReceive(0), ServerRespond(0, 0, body), Receive]) == [r]
  {
    var steps := [Call(r), Written, ServerReceive(0), ServerRespond(0, 0, body), Receive];
    var four, three, two, one := steps[1..], steps[1..][1..], steps[1..][1..][1..], steps[1..][1..][1..][1..];
    assert Requests(one) == Requests(one[1..]) == [];
    assert Requests(two) == Requests(one);
    assert Requests(three) == Requests(two);
    assert Requests(four) == Requests(three);
    assert [r] + [] == [r];
  }

  lemma {:induction false} TwoMore(s0: System, s1: System, s2: System, steps: seq<Step>)
    requires |steps| >= 2 && Enabled(s0, steps[0]) && s1 == Apply(s0, steps[0]) && Enabled(s1, steps[1]) && s2 == Apply(s1, steps[1])
    requires ValidRun(s2, steps[2..])
    ensures ValidRun(s0, steps) && Run(s0, steps) == Run(s2, steps[2..])
  {
    hide Enabled, Apply;
    assert steps[1..][1..] == steps[2..];
    assert ValidRun(s1, steps[1..]) && Run(s1, steps[1..]) == Run(s2, steps[2..]);
  }

  lemma {:induction false} WrittenAtOnce(s1: System) returns (s2: System)
    requires |s1.connections| == 1 && s1.client.pending == [0] && s1.client.writing == [0] && s1.client.finishing.None?
    ensures Enabled(s1, Written) && s2 == Apply(s1, Written)
    ensures s2.connections == s1.connections && s2.done == s1.done && s2.client.writing == [] && s2.client.pending == []
    ensures s2.client.sessions == s1.client.sessions && s2.client.finishing.None? && s2.client.reading == s1.client.reading
  {
    s2 := Apply(s1, Written);
    var c := PopWritten(s1.client);
    assert !CanWrite(c) && Launched(c) == [];
    var x := Current(s1);
    assert x.(up := x.up + [], launched := x.launched + []) == x;
  }

  lemma {:induction false} ReceivedAtOnce(s: System, m: Message, body: seq<Byte>) returns (s': System)
    requires Sendable(body) && s.connections == [Connection([], [], [ResponseMessage(m, body)], [m], [m])] && SeqOf(m) == 0
    requires s.client.writing == [] && s.client.finishing.None? && s.client.reading > 0 && s.client.sessions.Keys == {0} && s.done == []
    ensures Enabled(s, Receive) && s' == Apply(s, Receive)
    ensures |s'.done| == 1 && s'.done[0].call == 0 && s'.done[0].response.payload == body && s'.client.sessions == map[]
  {
    s' := Apply(s, Receive);
    assert 0 in s.client.sessions.Keys;
  }

  lemma {:induction false} NotEnabled(s: System)
    requires Protocol.Connected(s) && Current(s).down != []
    requires s.client.pending == [0] && s.client.writing == [0] && SeqOf(Current(s).down[0]) == 0 && 0 in s.client.sessions
    ensures !Enabled(s, Receive)
    ensures 0 in ReceivePackage(s).client.pending && 0 !in ReceivePackage(s).client.sessions
  {
  }

  lemma {:induction false} ThreeSteps(s0: System, s1: System, s2: System, s3: System, steps: seq<Step>)
    requires |steps| == 3 && Enabled(s0, steps[0]) && s1 == Apply(s0, steps[0])
    requires Enabled(s1, steps[1]) && s2 == Apply(s1, steps[1])
    requires Enabled(s2, steps[2]) && s3 == Apply(s2, steps[2])
    ensures ValidRun(s0, steps) && Run(s0, steps) == s3
  {
    hide Enabled, Apply;
    var last := steps[1..][1..];
    assert steps[1..][0] == steps[1] && last[0] == steps[2] && last[1..] == [];
    assert ValidRun(s3, last[1..]) && Run(s3, last[1..]) == s3;
    assert ValidRun(s2, last) && Run(s2, last) == s3;
    assert ValidRun(s1, steps[1..]) && Run(s1, steps[1..]) == s3;
  }

  /** The outstanding sessions are the disjoint union of those queued in pending_ and those fully
      written on the current socket and unanswered. */
  lemma {:induction false} OutstandingTheorem(s: System)
    requires Reachable(s)
    ensures var c := s.client;
            var queued, written := set k | k in c.pending, (set k | k in c.sent) - Answered(s);
            c.sessions.Keys == queued + written && queued !! written
  {
    hide Reachable, SystemInv;
    ReachableKeeps(s);
    QueueOf(s);
    QueueSplits(s.client, Answered(s));
  }

  lemma {:induction false} QueueOf(s: System)
    requires SystemInv(s)
    ensures QueueInv(s.client, Answered(s))
  {
    hide QueueInv, MarkInv, HeadMarked, CallInv, NetInv, StartedInv, DoneInv;
  }

  lemma {:induction false} QueueSplits(c: Client, answered: set<nat>)
    requires QueueInv(c, answered)
    ensures var queued, written := set k | k in c.pending, (set k | k in c.sent) - answered;
            c.sessions.Keys == queued + written && queued !! written
  {
    assert forall k :: k in c.sessions.Keys <==> k in c.sessions;
    assert forall k :: k in c.queued <==> k in c.sent || k in c.pending;
    forall i, j | 0 <= i < |c.sent| && 0 <= j < |c.pending| ensures c.sent[i] != c.pending[j] {
      assert c.queued[i] == c.sent[i] && c.queued[|c.sent| + j] == c.pending[j];
    }
  }

  /** At most one write is outstanding per socket, only the head of pending_ is marked, and the
      CHECKs in Written hold whenever a write completes. */
  lemma {:induction false} PumpTheorem(s: System)
    requires Reachable(s)
    ensures var c := s.client;
            && |c.writing| <= 1
            && (forall i | 0 <= i < |c.pending| :: c.pending[i] in c.sessions)
            && (forall i | 0 <= i < |c.pending| :: c.sessions[c.pending[i]].isPending <==> i == 0)
            && (Enabled(s, Written) ==> c.pending != [] && c.writing == [c.pending[0]])
  {
    ReachableKeeps(s);
  }

  /** Right after a successful reconnect, pending_ is every outstanding session in increasing
      sequence number, and only the head is marked, its write the only one started. */
  lemma {:induction false} ReconnectTheorem(s: System)
    requires Reachable(s) && Enabled(s, ConnectDone) && !s.client.terminated
    ensures var c, c' := s.client, Apply(s, ConnectDone).client;
            && (forall k :: k in c'.pending <==> k in c.sessions)
            && Ascending(c'.pending)
            && c'.sessions.Keys == c.sessions.Keys
            && (forall k | k in c'.sessions :: c'.sessions[k].isPending <==> k == c'.pending[0])
            && c'.writing == c'.pending[..if c'.pending == [] then 0 else 1]
            && c'.sent == []
  {
    hide Reachable, SystemInv, QueueInv, MarkInv, HeadMarked, Resent, Resend, ResendLaunched, Apply, Enabled, Rebuild, Ascending;
    ReachableKeeps(s);
    QueueOf(s);
    ConnectDoneClient(s);
    var c := s.client;
    RebuildFacts(c);
    ReconnectKeeps(c, Answered(s));
    SessionsBelow(c, Answered(s));
    ResentIs(Rebuild(c), Resend(Rebuild(c), c.nextSeq), ResendLaunched(Rebuild(c), c.nextSeq));
  }

  lemma {:induction false} ConnectDoneClient(s: System)
    requires Enabled(s, ConnectDone) && !s.client.terminated
    ensures Apply(s, ConnectDone).client == Resend(Rebuild(s.client), s.client.nextSeq)
  {
    hide Resend, ResendLaunched;
  }

  lemma {:induction false} RebuildFacts(c: Client)
    ensures Rebuild(c).sent == [] && Rebuild(c).sessions == c.sessions && Rebuild(c).nextSeq == c.nextSeq
  {
  }

  lemma {:induction false} SessionsBelow(c: Client, answered: set<nat>)
    requires QueueInv(c, answered)
    ensures forall k | k in c.sessions :: k < c.nextSeq
  {
  }

  lemma {:induction false} ResentIs(b: Client, r: Client, launched: seq<Message>)
    requires Resent(b, r, launched, b.nextSeq) && b.sent == [] && forall k | k in b.sessions :: k < b.nextSeq
    ensures forall k :: k in r.pending <==> k in b.sessions
    ensures Ascending(r.pending) && r.sessions.Keys == b.sessions.Keys && r.sent == []
    ensures r.writing == r.pending[..if r.pending == [] then 0 else 1]
    ensures forall k | k in r.sessions :: r.pending != [] && (r.sessions[k].isPending <==> k == r.pending[0])
  {
    hide Ascending;
    var q := InOrder(b.sessions.Keys, b.nextSeq);
    InOrderIs(b.sessions.Keys, b.nextSeq);
    assert forall k :: k in b.sessions.Keys <==> k in b.sessions;
    forall k | k in r.sessions ensures k in q { assert k in r.sessions.Keys; }
  }

  // ----- Bytes of a socket -----

  function MessagesOf(calls: map<nat, Message>, q: seq<nat>): (ms: seq<Message>)
    requires forall k | k in q :: k in calls
    ensures |ms| == |q| && forall i | 0 <= i < |q| :: ms[i] == calls[q[i]]
  {
    seq(|q|, i requires 0 <= i < |q| => calls[q[i]])
  }

  /** The current socket. What was handed to async_write is the requests in SendInLoop order, without
      repeats: those sent and then the head of pending_. With any part `w` of the head's frame, the
      bytes written are a prefix of the frames in SendInLoop order. */
  lemma {:induction false} SocketBytesTheorem(s: System, w: seq<Byte>)
    requires Reachable(s)
    ensures Protocol.Connected(s) && forall k | k in s.client.queued :: k in s.calls
    ensures var c, x := s.client, Current(s);
            var inOrder, n := MessagesOf(s.calls, c.queued), |c.sent|;
            && |x.launched| == n + (if c.pending == [] then 0 else 1) && x.launched <= inOrder && OnceInOrder(inOrder)
            && (w == [] || (n < |x.launched| && w <= Frame(x.launched[n])) ==>
                  Flatten(FrameList(x.launched[..n])) + w <= Flatten(FrameList(inOrder)))
  {
    hide Reachable, SystemInv, WireInv, Frame;
    ReachableKeeps(s);
    ReachableCarries(s);
    HandedIsPrefix(s);
    var c, x := s.client, Current(s);
    var inOrder, n := MessagesOf(s.calls, c.queued), |c.sent|;
    if w == [] || (n < |x.launched| && w <= Frame(x.launched[n])) {
      FrameBytes(inOrder, n, w);
      assert x.launched[..n] == inOrder[..n];
    }
  }

  lemma {:induction false} HandedIsPrefix(s: System)
    requires SystemInv(s) && WireInv(s)
    ensures forall k | k in s.client.queued :: k in s.calls
    ensures var c, x := s.client, Current(s);
            var inOrder := MessagesOf(s.calls, c.queued);
            |x.launched| == |c.sent| + (if c.pending == [] then 0 else 1) && x.launched <= inOrder && OnceInOrder(inOrder)
            && |c.sent| <= |inOrder|
  {
    hide DoneInv, NetInv, StartedInv, SocketInv, Intact;
    var c, x := s.client, Current(s);
    var q := c.sent + MarkedHead(c);
    assert forall k | k in c.queued :: k in s.calls;
    assert q == c.queued[..|q|];
    assert forall k | k in c.queued :: IsCall(s.calls[k], k);
  }

  lemma {:induction false} FrameBytes(ms: seq<Message>, n: nat, w: seq<Byte>)
    requires n <= |ms| && (w == [] || (n < |ms| && w <= Frame(ms[n])))
    ensures Flatten(FrameList(ms[..n])) + w <= Flatten(FrameList(ms))
  {
    hide Frame;
    var fs, gs := FrameList(ms[..n]), FrameList(ms[n..]);
    assert FrameList(ms) == fs + gs;
    FlattenAppend(fs, gs);
    if w != [] {
      assert w <= gs[0] && gs[0] <= Flatten(gs);
      assert w == Flatten(gs)[..|w|];
    }
    assert Flatten(fs) + w == (Flatten(fs) + Flatten(gs))[..|Flatten(fs)| + |w|];
  }

  /** Every socket, past ones included. Its requests were handed over in increasing number, none
      twice; what arrived at the server and what is on its way is that list, in order, but for at
      most the last, whose write failed; and the server serves and answers only what arrived. */
  lemma {:induction false} SocketOrderTheorem(s: System, k: nat)
    requires Reachable(s) && k < |s.connections|
    ensures var x := s.connections[k];
            && OnceInOrder(x.launched)
            && x.arrived + x.up <= x.launched && |x.launched| <= |x.arrived + x.up| + 1
            && (forall m | m in x.serving :: m in x.arrived)
            && (forall m | m in x.down :: exists r :: r in x.arrived && SeqOf(r) == SeqOf(m))
            && (forall i, j | 0 <= i < j < |x.serving| :: SeqOf(x.serving[i]) != SeqOf(x.serving[j]))
            && (forall i, j | 0 <= i < |x.serving| && 0 <= j < |x.down| :: SeqOf(x.serving[i]) != SeqOf(x.down[j]))
            && (forall i, j | 0 <= i < j < |x.down| :: SeqOf(x.down[i]) != SeqOf(x.down[j]))
  {
    hide Reachable;
    ReachableCarries(s);
    assert SocketInv(s.connections[k]);
  }

  // ----- Reading, connecting, stopped -----

  ghost predicate Reading(c: Client) { c.reading == 1 && c.connecting == 0 }
  ghost predicate Connecting(c: Client) { c.reading == 0 && c.connecting == 1 }
  ghost predicate Stopped(c: Client) { c.reading == 0 && c.connecting == 0 }

  /** Between steps exactly one read or one connect attempt is outstanding, or the channel has
      stopped, which only termination or the absence of auto-reconnect does, and for good. */
  lemma {:induction false} ModeTheorem(s: System, steps: seq<Step>)
    requires Reachable(s) && ValidRun(s, steps)
    ensures Reading(s.client) || Connecting(s.client) || Stopped(s.client)
    ensures Stopped(s.client) ==> s.client.terminated || !s.client.autoReconnect
    ensures Connecting(s.client) ==> s.client.autoReconnect && s.client.closedByPeer
    ensures Stopped(s.client) ==> Stopped(Run(s, steps).client)
  {
    ReachableKeeps(s);
    if Stopped(s.client) { StoppedStays(s, steps); }
  }

  lemma {:induction false} StoppedStays(s: System, steps: seq<Step>)
    requires Stopped(s.client) && ValidRun(s, steps)
    ensures Stopped(Run(s, steps).client)
    decreases |steps|
  {
    if steps != [] {
      assert Stopped(Apply(s, steps[0]).client);
      StoppedStays(Apply(s, steps[0]), steps[1..]);
    }
  }

  /** A failed read starts one connect attempt exactly when reconnecting is on and the channel is not
      terminated; otherwise the channel stops. */
  lemma {:induction false} ReadErrorTheorem(s: System)
    requires Reachable(s) && Enabled(s, ReadError)
    ensures var c, c' := s.client, Apply(s, ReadError).client;
            && (if c.autoReconnect && !c.terminated then Connecting(c') else Stopped(c'))
            && (!c.terminated ==> c'.closedByPeer)
  {
    hide Reachable, SystemInv;
    ReachableKeeps(s);
    ModeOf(s);
  }

  lemma {:induction false} ModeOf(s: System)
    requires SystemInv(s)
    ensures ModeInv(s.client)
  {
    hide QueueInv, MarkInv, HeadMarked, CallInv, NetInv, StartedInv, DoneInv;
  }

  /** After TerminateInLoop, in every continuation, no connect attempt is started and no socket is
      exchanged. */
  lemma {:induction false} TerminateTheorem(s: System, steps: seq<Step>)
    requires Enabled(s, Terminate) && ValidRun(Apply(s, Terminate), steps)
    ensures var r := Run(Apply(s, Terminate), steps);
            r.client.terminated && r.client.connecting <= s.client.connecting && |r.connections| == |s.connections|
  {
    hide ValidRun, Run;
    TerminatedStays(Apply(s, Terminate), steps);
  }

  lemma {:induction false} TerminatedStays(s: System, steps: seq<Step>)
    requires s.client.terminated && ValidRun(s, steps)
    ensures var r := Run(s, steps);
            r.client.terminated && r.client.connecting <= s.client.connecting && |r.connections| == |s.connections|
    decreases |steps|
  {
    hide Enabled, Apply;
    if steps != [] {
      TerminatedStep(s, steps[0]);
      TerminatedStays(Apply(s, steps[0]), steps[1..]);
    }
  }

  lemma {:induction false} TerminatedStep(s: System, step: Step)
    requires s.client.terminated && Enabled(s, step)
    ensures var s' := Apply(s, step);
            s'.client.terminated && s'.client.connecting <= s.client.connecting && |s'.connections| == |s.connections|
  {
    hide Resend, ResendLaunched, ServerLacks, RequestMessage, ResponseMessage;
  }
}
