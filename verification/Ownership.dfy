/** Who keeps a server channel alive (rpc/detail/ref_count.h, network_dispatcher.cc:28-63,
    rpc_channel.cc:48-173): an intrusive reference count, counted pointers bound into the handlers
    of asynchronous operations, and the dispatcher's bounded pool, on one loop thread. */
module Ownership {
  type Address = nat

  /** `queued` is the length of pending_; `sending` is whether its head is marked pending. */
  datatype Channel = Channel(count: int, closedByPeer: bool, terminated: bool, queued: nat, sending: bool)

  /** A handler waiting in the loop, bound to a counted pointer. */
  datatype Handler = Start(channel: Address) | Read(channel: Address) | Write(channel: Address)

  /** `live` is the heap: the channels not yet deleted. `running` is the counted pointer of the
      handler (or caller) being executed. */
  datatype Loop = Loop(
    threshold: nat,
    live: map<Address, Channel>,
    pool: set<Address>,
    handlers: multiset<Handler>,
    running: set<Address>)

  /** Counted pointers to channel a. */
  function Holders(l: Loop, a: Address): nat {
    l.handlers[Start(a)] + l.handlers[Read(a)] + l.handlers[Write(a)] + if a in l.running then 1 else 0
  }

  function PoolShare(l: Loop, a: Address): nat {
    if a in l.pool then 1 else 0
  }

  // ----- Operations; each touches only a live channel -----

  function Set(l: Loop, a: Address, c: Channel): Loop {
    l.(live := l.live[a := c])
  }

  function Ref(l: Loop, a: Address): Loop
    requires a in l.live
  {
    Set(l, a, l.live[a].(count := l.live[a].count + 1))
  }

  /** UnRef deletes the channel when the count reaches zero. */
  function UnRef(l: Loop, a: Address): Loop
    requires a in l.live && l.live[a].count >= 1
  {
    if l.live[a].count == 1 then l.(live := l.live - {a}) else Set(l, a, l.live[a].(count := l.live[a].count - 1))
  }

  /** Starts an operation whose handler holds counted_this(). */
  function Bind(l: Loop, h: Handler): Loop
    requires h.channel in l.live
  {
    Ref(l, h.channel).(handlers := l.handlers + multiset{h})
  }

  /** The loop picks a handler: its pointer is now the running one. */
  function Enter(l: Loop, h: Handler): Loop {
    l.(handlers := l.handlers - multiset{h}, running := {h.channel})
  }

  /** The running handler is destroyed and its pointer with it. */
  function Leave(l: Loop, a: Address): Loop
    requires a in l.live && l.live[a].count >= 1
  {
    UnRef(l.(running := {}), a)
  }

  predicate PoolFull(l: Loop) {
    |l.pool| == l.threshold
  }

  function SaveChannel(l: Loop, a: Address): Loop
    requires a in l.live && !PoolFull(l) && a !in l.pool
  {
    Ref(l, a).(pool := l.pool + {a})
  }

  function ReleaseChannel(l: Loop, a: Address): Loop
    requires a in l.live && l.live[a].count >= 1
  {
    if a in l.pool then UnRef(l.(pool := l.pool - {a}), a) else l
  }

  function WriteInLoop(l: Loop, a: Address): Loop
    requires a in l.live
  {
    if l.live[a].queued == 0 || l.live[a].sending then l
    else Bind(Set(l, a, l.live[a].(sending := true)), Write(a))
  }

  /** n responses handed to SendInLoop. */
  function SendAll(l: Loop, a: Address, n: nat): (r: Loop)
    requires a in l.live
    ensures a in r.live
  {
    if n == 0 then l
    else
      var l' := SendAll(l, a, n - 1);
      WriteInLoop(Set(l', a, l'.live[a].(queued := l'.live[a].queued + 1)), a)
  }

  // ----- Handler bodies; the running pointer is a's -----

  function StartBody(l: Loop, a: Address): Loop
    requires a in l.live && a !in l.pool
  {
    if PoolFull(l) then Set(l, a, l.live[a].(terminated := true)) else Bind(SaveChannel(l, a), Read(a))
  }

  /** What a read brings: an error, or requests whose services run `done` before returning. */
  datatype Outcome = Failed | Served(responses: nat)

  function ReadBody(l: Loop, a: Address, outcome: Outcome): Loop
    requires a in l.live && l.live[a].count >= 1
  {
    var c := l.live[a];
    if c.terminated then l
    else
      match outcome
      case Failed => if c.closedByPeer then l else ReleaseChannel(Set(l, a, c.(closedByPeer := true)), a)
      case Served(n) => Bind(SendAll(l, a, n), Read(a))
  }

  function WrittenBody(l: Loop, a: Address, ok: bool): Loop
    requires a in l.live
  {
    var c := l.live[a];
    if !ok || c.queued == 0 then l else WriteInLoop(Set(l, a, c.(queued := c.queued - 1, sending := false)), a)
  }

  function TerminateAll(l: Loop): Loop {
    l.(live := map a | a in l.live :: if a in l.pool then l.live[a].(terminated := true) else l.live[a])
  }

  // ----- Steps -----

  datatype Step =
    | Accepted(channel: Address)                 // new ServerRPCChannel, StartChannel
    | Started(channel: Address)                  // StartChannelInLoop
    | ReadDone(channel: Address, outcome: Outcome)
    | WriteDone(channel: Address, ok: bool)
    | CloseAll                                   // CloseAllChannelsInLoop

  /** A step needs its handler to be waiting; the allocator returns memory that is not in use. */
  predicate Enabled(l: Loop, step: Step) {
    match step
    case Accepted(a) => a !in l.live
    case Started(a) => Start(a) in l.handlers
    case ReadDone(a, _) => Read(a) in l.handlers
    case WriteDone(a, _) => Write(a) in l.handlers
    case CloseAll => true
  }

  /** The channel is new: its count starts at 1, adopted by the caller's pointer. */
  function NewChannel(l: Loop, a: Address): Loop {
    Set(l, a, Channel(1, false, false, 0, false)).(running := {a})
  }

  // ----- The invariant -----

  /** The count is the number of counted pointers plus the pool's share, and is never zero. */
  predicate Counted(l: Loop, a: Address) {
    a in l.live && l.live[a].count == Holders(l, a) + PoolShare(l, a) && l.live[a].count >= 1
  }

  /** What is not live is not referred to. */
  predicate Forgotten(l: Loop, a: Address) {
    Holders(l, a) == 0 && a !in l.pool
  }

  predicate Accounted(l: Loop, a: Address) {
    if a in l.live then Counted(l, a) else Forgotten(l, a)
  }

  /** At most one write is outstanding, and only for a marked head of a queue. */
  predicate WritePhased(l: Loop, a: Address) {
    && l.handlers[Write(a)] <= 1
    && (Write(a) in l.handlers ==> a in l.live && l.live[a].sending && l.live[a].queued > 0)
  }

  /** A channel is starting, reading or stopped; only a reading or terminated one is in the pool;
      at most one write is outstanding. */
  predicate Phased(l: Loop, a: Address) {
    && l.handlers[Start(a)] + l.handlers[Read(a)] <= 1
    && WritePhased(l, a)
    && (Start(a) in l.handlers ==> a !in l.pool && a in l.live && !l.live[a].closedByPeer && !l.live[a].terminated)
    && (a in l.pool ==> a in l.live && (Read(a) in l.handlers || l.live[a].terminated))
    && (Read(a) in l.handlers ==> a in l.pool && a in l.live && !l.live[a].closedByPeer)
  }

  ghost predicate AllAccounted(l: Loop) {
    |l.pool| <= l.threshold && forall a: Address :: Accounted(l, a)
  }

  ghost predicate Inv(l: Loop) {
    l.running == {} && AllAccounted(l) && forall a: Address :: Phased(l, a)
  }

  // ----- Every operation keeps the accounts -----

  lemma {:induction false} SetKeeps(l: Loop, a: Address, c: Channel)
    requires AllAccounted(l) && a in l.live && c.count == l.live[a].count
    ensures AllAccounted(Set(l, a, c))
  {
    var l' := Set(l, a, c);
    forall b: Address ensures Accounted(l', b) { assert Accounted(l, b); }
  }

  lemma {:induction false} BindKeeps(l: Loop, h: Handler)
    requires AllAccounted(l) && h.channel in l.live
    ensures AllAccounted(Bind(l, h))
  {
    var l' := Bind(l, h);
    forall b: Address ensures Accounted(l', b) { assert Accounted(l, b); }
  }

  lemma {:induction false} EnterKeeps(l: Loop, h: Handler)
    requires AllAccounted(l) && l.running == {} && h in l.handlers
    ensures AllAccounted(Enter(l, h)) && h.channel in l.live && l.live[h.channel].count >= 1
  {
    var l' := Enter(l, h);
    forall b: Address ensures Accounted(l', b) { assert Accounted(l, b); }
    assert Accounted(l, h.channel);
  }

  lemma {:induction false} SaveKeeps(l: Loop, a: Address)
    requires AllAccounted(l) && a in l.live && !PoolFull(l) && a !in l.pool
    ensures AllAccounted(SaveChannel(l, a))
  {
    var l' := SaveChannel(l, a);
    forall b: Address ensures Accounted(l', b) { assert Accounted(l, b); }
  }

  /** The UnRef in ReleaseChannel never deletes the channel whose handler is running. */
  lemma {:induction false} ReleaseKeeps(l: Loop, a: Address)
    requires AllAccounted(l) && a in l.running
    ensures a in l.live && l.live[a].count >= 1
    ensures AllAccounted(ReleaseChannel(l, a)) && a in ReleaseChannel(l, a).live && a !in ReleaseChannel(l, a).pool
  {
    assert Accounted(l, a);
    var l' := ReleaseChannel(l, a);
    forall b: Address ensures Accounted(l', b) { assert Accounted(l, b); }
  }

  /** Destroying the running pointer deletes the channel exactly when nothing else holds it. */
  lemma {:induction false} LeaveKeeps(l: Loop, a: Address)
    requires AllAccounted(l) && l.running == {a}
    ensures a in l.live && l.live[a].count >= 1
    ensures AllAccounted(Leave(l, a)) && Leave(l, a).running == {}
    ensures a !in Leave(l, a).live <==> Forgotten(Leave(l, a), a)
  {
    assert Accounted(l, a);
    var l' := Leave(l, a);
    forall b: Address ensures Accounted(l', b) { assert Accounted(l, b); }
  }

  lemma {:induction false} WriteKeeps(l: Loop, a: Address)
    requires AllAccounted(l) && a in l.live
    ensures AllAccounted(WriteInLoop(l, a))
  {
    if l.live[a].queued != 0 && !l.live[a].sending {
      var c := l.live[a].(sending := true);
      SetKeeps(l, a, c);
      BindKeeps(Set(l, a, c), Write(a));
    }
  }

  lemma {:induction false} SendAllKeeps(l: Loop, a: Address, n: nat)
    requires AllAccounted(l) && a in l.live
    ensures AllAccounted(SendAll(l, a, n))
  {
    hide AllAccounted;
    if n > 0 {
      SendAllKeeps(l, a, n - 1);
      var l' := SendAll(l, a, n - 1);
      var c := l'.live[a].(queued := l'.live[a].queued + 1);
      SetKeeps(l', a, c);
      WriteKeeps(Set(l', a, c), a);
    }
  }

  // ----- Runs -----

  /** The body of a step, up to the release of the running pointer. Every operation in it asks for
      a live channel, UnRef for a positive count and SaveChannel for a channel not yet in the pool
      (the CHECKs at ref_count.h:28 and network_dispatcher.cc:47): under the invariant all hold. */
  ghost function Body(l: Loop, step: Step): Loop
    requires Inv(l) && Enabled(l, step)
  {
    match step
    case Accepted(a) => Bind(NewChannel(l, a), Start(a))
    case Started(a) => assert Phased(l, a); StartBody(Enter(l, Start(a)), a)
    case ReadDone(a, outcome) => EnterKeeps(l, Read(a)); ReadBody(Enter(l, Read(a)), a, outcome)
    case WriteDone(a, ok) => EnterKeeps(l, Write(a)); WrittenBody(Enter(l, Write(a)), a, ok)
    case CloseAll => TerminateAll(l)
  }

  ghost function Apply(l: Loop, step: Step): Loop
    requires Inv(l) && Enabled(l, step)
  {
    BodyAccounted(l, step);
    if step.CloseAll? then Body(l, step) else LeaveKeeps(Body(l, step), step.channel); Leave(Body(l, step), step.channel)
  }

  lemma {:induction false} BodyAccounted(l: Loop, step: Step)
    requires Inv(l) && Enabled(l, step)
    ensures AllAccounted(Body(l, step))
    ensures Body(l, step).running == if step.CloseAll? then {} else {step.channel}
  {
    match step
    case Accepted(a) => NewKeeps(l, a); BindKeeps(NewChannel(l, a), Start(a));
    case Started(a) => EnterKeeps(l, Start(a)); assert Phased(l, a); StartAccounted(Enter(l, Start(a)), a);
    case ReadDone(a, outcome) => EnterKeeps(l, Read(a)); assert Phased(l, a); ReadAccounted(Enter(l, Read(a)), a, outcome);
    case WriteDone(a, ok) => EnterKeeps(l, Write(a)); WrittenAccounted(Enter(l, Write(a)), a, ok);
    case CloseAll => CloseAccounted(l);
  }

  lemma {:induction false} NewKeeps(l: Loop, a: Address)
    requires AllAccounted(l) && l.running == {} && a !in l.live
    ensures AllAccounted(NewChannel(l, a))
  {
    var l' := NewChannel(l, a);
    forall b: Address ensures Accounted(l', b) { assert Accounted(l, b); }
  }

  lemma {:induction false} StartAccounted(l: Loop, a: Address)
    requires AllAccounted(l) && a in l.live && a !in l.pool
    ensures AllAccounted(StartBody(l, a)) && StartBody(l, a).running == l.running
  {
    hide AllAccounted;
    if PoolFull(l) {
      SetKeeps(l, a, l.live[a].(terminated := true));
    } else {
      SaveKeeps(l, a);
      BindKeeps(SaveChannel(l, a), Read(a));
    }
  }

  lemma {:induction false} ReadAccounted(l: Loop, a: Address, outcome: Outcome)
    requires AllAccounted(l) && a in l.live && l.live[a].count >= 1 && l.running == {a} && WritePhased(l, a)
    ensures AllAccounted(ReadBody(l, a, outcome)) && ReadBody(l, a, outcome).running == {a}
  {
    hide AllAccounted, SendAll;
    var c := l.live[a];
    if outcome.Served? {
      SendAllKeeps(l, a, outcome.responses);
      SendAllScope(l, a, outcome.responses);
      BindKeeps(SendAll(l, a, outcome.responses), Read(a));
    } else {
      SetKeeps(l, a, c.(closedByPeer := true));
      ReleaseKeeps(Set(l, a, c.(closedByPeer := true)), a);
    }
  }

  lemma {:induction false} WrittenAccounted(l: Loop, a: Address, ok: bool)
    requires AllAccounted(l) && a in l.live
    ensures AllAccounted(WrittenBody(l, a, ok)) && WrittenBody(l, a, ok).running == l.running
  {
    hide AllAccounted;
    var c := l.live[a];
    if ok && c.queued != 0 {
      var d := c.(queued := c.queued - 1, sending := false);
      SetKeeps(l, a, d);
      WriteKeeps(Set(l, a, d), a);
    }
  }

  lemma {:induction false} CloseAccounted(l: Loop)
    requires AllAccounted(l)
    ensures AllAccounted(TerminateAll(l))
  {
    var l' := TerminateAll(l);
    forall b: Address ensures Accounted(l', b) { assert Accounted(l, b); }
  }

  /** From l to r only a's queue and write handler changed. */
  ghost predicate OnlyQueue(l: Loop, r: Loop, a: Address) {
    && a in l.live && a in r.live
    && r == l.(live := l.live[a := r.live[a]], handlers := r.handlers)
    && r.live[a].closedByPeer == l.live[a].closedByPeer && r.live[a].terminated == l.live[a].terminated
    && forall h: Handler | h != Write(a) :: r.handlers[h] == l.handlers[h]
  }

  lemma {:induction false} WriteScope(l: Loop, a: Address)
    requires a in l.live && WritePhased(l, a)
    ensures OnlyQueue(l, WriteInLoop(l, a), a) && WritePhased(WriteInLoop(l, a), a)
  {
    assert l.live == l.live[a := l.live[a]];
  }

  lemma {:induction false} SendAllScope(l: Loop, a: Address, n: nat)
    requires a in l.live && WritePhased(l, a)
    ensures OnlyQueue(l, SendAll(l, a, n), a) && WritePhased(SendAll(l, a, n), a)
  {
    hide WriteInLoop;
    if n == 0 {
      assert l.live == l.live[a := l.live[a]];
    } else {
      SendAllScope(l, a, n - 1);
      var l' := SendAll(l, a, n - 1);
      var l2 := Set(l', a, l'.live[a].(queued := l'.live[a].queued + 1));
      WriteScope(l2, a);
      ScopeJoins(l, l', l2, SendAll(l, a, n), a);
    }
  }

  lemma {:induction false} ScopeJoins(l: Loop, l': Loop, l2: Loop, r: Loop, a: Address)
    requires OnlyQueue(l, l', a) && OnlyQueue(l2, r, a)
    requires l2 == Set(l', a, l2.live[a]) && l2.live[a] == l'.live[a].(queued := l2.live[a].queued)
    ensures OnlyQueue(l, r, a)
  {
    assert r.live == l.live[a := r.live[a]];
    forall h: Handler | h != Write(a) ensures r.handlers[h] == l.handlers[h] {
      assert r.handlers[h] == l2.handlers[h];
    }
  }

  // ----- Phases -----

  ghost predicate AllPhased(l: Loop) {
    forall a: Address :: Phased(l, a)
  }

  /** Another channel's handlers, pool membership and record are untouched. */
  predicate Same(l: Loop, r: Loop, b: Address) {
    && l.handlers[Start(b)] == r.handlers[Start(b)] && l.handlers[Read(b)] == r.handlers[Read(b)]
    && l.handlers[Write(b)] == r.handlers[Write(b)] && (b in l.pool <==> b in r.pool)
    && (b in l.live <==> b in r.live) && (b in l.live ==> l.live[b] == r.live[b])
  }

  lemma {:induction false} SamePhase(l: Loop, r: Loop, a: Address)
    requires AllPhased(l) && Phased(r, a) && forall b: Address | b != a :: Same(l, r, b)
    ensures AllPhased(r)
  {
    forall b: Address ensures Phased(r, b) {
      assert Phased(l, b);
      if b != a { assert Same(l, r, b); }
    }
  }

  lemma {:induction false} StartPhased(l: Loop, a: Address)
    requires Inv(l) && Start(a) in l.handlers
    ensures var r := Body(l, Started(a)); Phased(r, a) && forall b: Address | b != a :: Same(l, r, b)
  {
    assert Phased(l, a);
  }

  lemma {:induction false} ReadPhased(l: Loop, a: Address, outcome: Outcome)
    requires Inv(l) && Read(a) in l.handlers
    ensures var r := Body(l, ReadDone(a, outcome)); Phased(r, a) && forall b: Address | b != a :: Same(l, r, b)
  {
    hide ReadBody, Phased;
    EnterKeeps(l, Read(a));
    assert Phased(l, a);
    var e := Enter(l, Read(a));
    if outcome.Served? { ServedPhased(l, e, a, outcome.responses); } else { FailedPhased(l, e, a); }
  }

  lemma {:induction false} ServedPhased(l: Loop, e: Loop, a: Address, n: nat)
    requires Phased(l, a) && Read(a) in l.handlers && e == Enter(l, Read(a)) && e.live[a].count >= 1
    ensures var r := ReadBody(e, a, Served(n)); Phased(r, a) && forall b: Address | b != a :: Same(l, r, b)
  {
    hide SendAll;
    SendAllScope(e, a, n);
  }

  lemma {:induction false} FailedPhased(l: Loop, e: Loop, a: Address)
    requires Phased(l, a) && Read(a) in l.handlers && e == Enter(l, Read(a)) && AllAccounted(e) && e.live[a].count >= 1
    ensures var r := ReadBody(e, a, Failed); Phased(r, a) && forall b: Address | b != a :: Same(l, r, b)
  {
    hide AllAccounted;
    SetKeeps(e, a, e.live[a].(closedByPeer := true));
    ReleaseKeeps(Set(e, a, e.live[a].(closedByPeer := true)), a);
  }

  lemma {:induction false} WrittenPhased(l: Loop, a: Address, ok: bool)
    requires Inv(l) && Write(a) in l.handlers
    ensures var r := Body(l, WriteDone(a, ok)); Phased(r, a) && forall b: Address | b != a :: Same(l, r, b)
  {
    hide WriteInLoop, AllAccounted;
    assert Phased(l, a);
    EnterKeeps(l, Write(a));
    var e := Enter(l, Write(a));
    var c := e.live[a];
    assert WritePhased(e, a);
    if ok {
      var e' := Set(e, a, c.(queued := c.queued - 1, sending := false));
      assert WritePhased(e', a);
      WriteScope(e', a);
    }
  }

  lemma {:induction false} AcceptPhased(l: Loop, a: Address)
    requires Inv(l) && a !in l.live
    ensures var r := Body(l, Accepted(a)); Phased(r, a) && forall b: Address | b != a :: Same(l, r, b)
  {
    assert Accounted(l, a);
  }

  lemma {:induction false} LeavePhased(l: Loop, a: Address)
    requires AllAccounted(l) && l.running == {a} && Phased(l, a)
    ensures a in l.live && l.live[a].count >= 1
    ensures Phased(Leave(l, a), a) && forall b: Address | b != a :: Same(l, Leave(l, a), b)
  {
    hide AllAccounted;
    LeaveKeeps(l, a);
  }

  lemma {:induction false} ClosePhased(l: Loop)
    requires Inv(l)
    ensures AllPhased(TerminateAll(l))
  {
    var r := TerminateAll(l);
    forall a: Address ensures Phased(r, a) { assert Phased(l, a); }
  }

  /** Every step keeps the invariant. */
  lemma {:induction false} StepKeeps(l: Loop, step: Step)
    requires Inv(l) && Enabled(l, step)
    ensures Inv(Apply(l, step)) && Apply(l, step).threshold == l.threshold
  {
    hide AllAccounted, Body, Phased, Same;
    BodyAccounted(l, step);
    if step.CloseAll? {
      ClosePhased(l);
      CloseIs(l);
    } else {
      var a, m := step.channel, Body(l, step);
      match step {
        case Accepted(_) => AcceptPhased(l, a);
        case Started(_) => StartPhased(l, a);
        case ReadDone(_, outcome) => ReadPhased(l, a, outcome);
        case WriteDone(_, ok) => WrittenPhased(l, a, ok);
        case CloseAll =>
      }
      LeavePhased(m, a);
      LeaveKeeps(m, a);
      SamePhase(l, m, a);
      SamePhase(m, Leave(m, a), a);
    }
    ThresholdKept(l, step);
  }

  lemma {:induction false} CloseIs(l: Loop)
    requires Inv(l)
    ensures Body(l, CloseAll) == TerminateAll(l)
  {
  }

  lemma {:induction false} ThresholdKept(l: Loop, step: Step)
    requires Inv(l) && Enabled(l, step)
    ensures Apply(l, step).threshold == l.threshold
  {
    hide Inv, Leave, Body;
    BodyAccounted(l, step);
    BodyThreshold(l, step);
    if !step.CloseAll? {
      LeaveKeeps(Body(l, step), step.channel);
      LeaveThreshold(Body(l, step), step.channel);
    }
  }

  lemma {:induction false} LeaveThreshold(l: Loop, a: Address)
    requires a in l.live && l.live[a].count >= 1
    ensures Leave(l, a).threshold == l.threshold
  {
  }

  lemma {:induction false} BodyThreshold(l: Loop, step: Step)
    requires Inv(l) && Enabled(l, step)
    ensures Body(l, step).threshold == l.threshold
  {
    hide AllAccounted, ReadBody, Holders;
    match step
    case Accepted(_) =>
    case Started(a) => assert Phased(l, a);
    case ReadDone(a, outcome) => ReadThreshold(l, a, outcome);
    case WriteDone(a, _) => EnterKeeps(l, Write(a));
    case CloseAll =>
  }

  lemma {:induction false} ReadThreshold(l: Loop, a: Address, outcome: Outcome)
    requires Inv(l) && Read(a) in l.handlers
    ensures Body(l, ReadDone(a, outcome)).threshold == l.threshold
  {
    hide AllAccounted, SendAll;
    assert Phased(l, a);
    EnterKeeps(l, Read(a));
    if outcome.Served? { SendAllScope(Enter(l, Read(a)), a, outcome.responses); }
  }

  /** A dispatcher before its first connection. */
  function Init(threshold: nat): Loop {
    Loop(threshold, map[], {}, multiset{}, {})
  }

  lemma {:induction false} InitHolds(threshold: nat)
    ensures Inv(Init(threshold))
  {
  }

  ghost predicate ValidRun(l: Loop, steps: seq<Step>)
    requires Inv(l)
    decreases |steps|
  {
    steps == [] || (Enabled(l, steps[0]) && (StepKeeps(l, steps[0]); ValidRun(Apply(l, steps[0]), steps[1..])))
  }

  ghost function Run(l: Loop, steps: seq<Step>): (r: Loop)
    requires Inv(l) && ValidRun(l, steps)
    ensures Inv(r) && r.threshold == l.threshold
    decreases |steps|
  {
    if steps == [] then l else StepKeeps(l, steps[0]); Run(Apply(l, steps[0]), steps[1..])
  }

  ghost predicate Reachable(l: Loop) {
    exists threshold, steps :: Inv(Init(threshold)) && ValidRun(Init(threshold), steps) && l == Run(Init(threshold), steps)
  }

  // ----- Theorems about every reachable state -----

  /** A channel's count is its counted pointers plus its pool membership, the count of a live
      channel is positive, no handler and no pool entry refers to a deleted channel, and the pool
      keeps within its threshold. */
  lemma {:induction false} CountTheorem(l: Loop)
    requires Reachable(l)
    ensures forall a | a in l.live :: l.live[a].count == Holders(l, a) + PoolShare(l, a) >= 1
    ensures forall h | h in l.handlers :: h.channel in l.live
    ensures l.pool <= l.live.Keys && |l.pool| <= l.threshold
  {
    forall a | a in l.live ensures l.live[a].count == Holders(l, a) + PoolShare(l, a) >= 1 { assert Accounted(l, a); }
    forall h | h in l.handlers ensures h.channel in l.live { assert Accounted(l, h.channel); }
    forall a | a in l.pool ensures a in l.live { assert Accounted(l, a); }
  }

  /** A step deletes at most the channel whose handler it runs, and exactly when no counted
      pointer and no pool membership remains. */
  lemma {:induction false} DeletionTheorem(l: Loop, step: Step, a: Address)
    requires Reachable(l) && Enabled(l, step) && a in l.live
    ensures a !in Apply(l, step).live <==> Forgotten(Apply(l, step), a)
    ensures a !in Apply(l, step).live ==> !step.CloseAll? && step.channel == a
  {
    StepKeeps(l, step);
    var r := Apply(l, step);
    assert Accounted(r, a);
    if !step.CloseAll? && step.channel != a {
      hide AllAccounted, Body, Phased;
      OthersSame(l, step, a);
    }
  }

  lemma {:induction false} OthersSame(l: Loop, step: Step, b: Address)
    requires Inv(l) && Enabled(l, step) && !step.CloseAll? && step.channel != b
    ensures Same(l, Apply(l, step), b)
  {
    hide AllAccounted, Body, Phased;
    BodyAccounted(l, step);
    var a, m := step.channel, Body(l, step);
    match step {
      case Accepted(_) => AcceptPhased(l, a);
      case Started(_) => StartPhased(l, a);
      case ReadDone(_, outcome) => ReadPhased(l, a, outcome);
      case WriteDone(_, ok) => WrittenPhased(l, a, ok);
      case CloseAll =>
    }
    LeavePhased(m, a);
    assert Same(l, m, b) && Same(m, Leave(m, a), b);
  }

  /** The UnRef inside ReadInLoop never deletes the channel that is reading, whatever the read
      brings; a first error takes the channel out of the pool. */
  lemma {:induction false} ReadTheorem(l: Loop, a: Address, outcome: Outcome)
    requires Reachable(l) && Read(a) in l.handlers
    ensures a in l.live && a in Body(l, ReadDone(a, outcome)).live
    ensures outcome.Failed? && !l.live[a].terminated ==>
              a !in Body(l, ReadDone(a, outcome)).pool && Body(l, ReadDone(a, outcome)).live[a].closedByPeer
  {
    BodyAccounted(l, ReadDone(a, outcome));
    var r := Body(l, ReadDone(a, outcome));
    assert Accounted(r, a);
    assert Phased(l, a);
    if outcome.Failed? {
      EnterKeeps(l, Read(a));
      FailedPhased(l, Enter(l, Read(a)), a);
    }
  }

  // ----- Which channels are never deleted -----

  /** A terminated channel in the pool stays there (rpc_channel.cc:50-55 returns without releasing it). */
  lemma {:induction false} TerminatedStays(l: Loop, step: Step, a: Address)
    requires Inv(l) && Enabled(l, step) && a in l.pool && a in l.live && l.live[a].terminated
    ensures var r := Apply(l, step); a in r.pool && a in r.live && r.live[a].terminated
  {
    StepKeeps(l, step);
    assert Phased(l, a);
    var r := Apply(l, step);
    assert Accounted(r, a);
    if !step.CloseAll? {
      if step.channel != a {
        OthersSame(l, step, a);
      } else {
        TerminatedBody(l, step, a);
      }
    }
  }

  lemma {:induction false} TerminatedBody(l: Loop, step: Step, a: Address)
    requires Inv(l) && Enabled(l, step) && !step.CloseAll? && step.channel == a && a in l.pool && a in l.live && l.live[a].terminated
    ensures var m := Body(l, step); a in m.pool && a in m.live && m.live[a].terminated
  {
    hide AllAccounted, WriteInLoop;
    assert Phased(l, a);
    if step.WriteDone? {
      EnterKeeps(l, Write(a));
      var e := Enter(l, Write(a));
      var c := e.live[a];
      var e' := Set(e, a, c.(queued := c.queued - 1, sending := false));
      assert WritePhased(e', a);
      WriteScope(e', a);
    }
  }

  lemma {:induction false} TerminatedStaysForGood(l: Loop, steps: seq<Step>, a: Address)
    requires Inv(l) && ValidRun(l, steps) && a in l.pool && a in l.live && l.live[a].terminated
    ensures var r := Run(l, steps); a in r.pool && a in r.live && r.live[a].terminated
    decreases |steps|
  {
    hide AllAccounted, Body, Phased, Enabled;
    if steps != [] {
      StepKeeps(l, steps[0]);
      TerminatedStays(l, steps[0], a);
      TerminatedStaysForGood(Apply(l, steps[0]), steps[1..], a);
    }
  }

  /** The next step of the shortest way to the deletion of a: its start, a failed read, a failed
      write. */
  function WayOut(l: Loop, a: Address): Step {
    if Start(a) in l.handlers then Started(a)
    else if Read(a) in l.handlers then ReadDone(a, Failed)
    else WriteDone(a, false)
  }

  function Distance(l: Loop, a: Address): nat {
    if Start(a) in l.handlers then 3 else if Read(a) in l.handlers then 2 else if Write(a) in l.handlers then 1 else 0
  }

  predicate Stuck(l: Loop, a: Address) {
    a in l.pool && a in l.live && l.live[a].terminated
  }

  lemma {:induction false} WayOutLeads(l: Loop, a: Address)
    requires Inv(l) && a in l.live && !Stuck(l, a)
    ensures Enabled(l, WayOut(l, a)) && !WayOut(l, a).CloseAll?
    ensures var r := Apply(l, WayOut(l, a)); Inv(r) && !Stuck(r, a) && (a in r.live ==> Distance(r, a) < Distance(l, a))
  {
    hide Inv, Body, Leave, AllAccounted;
    InvAt(l, a);
    var step := WayOut(l, a);
    WayOutEnabled(l, a);
    StepKeeps(l, step);
    InvAt(Apply(l, step), a);
    BodyAccounted(l, step);
    LeaveKeeps(Body(l, step), a);
    LeaveRest(Body(l, step), a);
    if Start(a) in l.handlers {
      StartedAhead(l, a);
    } else if Read(a) in l.handlers {
      FailedReadAhead(l, a);
    } else {
      FailedWriteAhead(l, a);
    }
  }

  lemma {:induction false} InvAt(l: Loop, a: Address)
    requires Inv(l)
    ensures Phased(l, a) && Accounted(l, a) && l.running == {}
  {
    hide Phased, Accounted;
  }

  lemma {:induction false} WayOutEnabled(l: Loop, a: Address)
    requires Phased(l, a) && Accounted(l, a) && l.running == {} && a in l.live && !Stuck(l, a)
    ensures Enabled(l, WayOut(l, a)) && WayOut(l, a).channel == a
  {
  }

  lemma {:induction false} LeaveRest(l: Loop, a: Address)
    requires a in l.live && l.live[a].count >= 1
    ensures var r := Leave(l, a);
            r.handlers == l.handlers && r.pool == l.pool && (a in r.live ==> r.live[a].terminated == l.live[a].terminated)
  {
  }

  lemma {:induction false} StartedAhead(l: Loop, a: Address)
    requires Inv(l) && Start(a) in l.handlers
    ensures var m := Body(l, Started(a)); m.handlers[Start(a)] == 0 && !Stuck(m, a)
  {
    assert Phased(l, a);
  }

  lemma {:induction false} FailedReadAhead(l: Loop, a: Address)
    requires Inv(l) && Read(a) in l.handlers && a in l.live && !l.live[a].terminated
    ensures var m := Body(l, ReadDone(a, Failed)); m.handlers == l.handlers - multiset{Read(a)} && a !in m.pool && m.running == {a}
  {
    hide AllAccounted;
    assert Phased(l, a);
    EnterKeeps(l, Read(a));
  }

  lemma {:induction false} FailedWriteAhead(l: Loop, a: Address)
    requires Inv(l) && Write(a) in l.handlers
    ensures var m := Body(l, WriteDone(a, false)); m.handlers == l.handlers - multiset{Write(a)} && m.pool == l.pool && m.live == l.live
  {
    EnterKeeps(l, Write(a));
  }

  /** Any other live channel can still be deleted. */
  lemma {:induction false} Deletable(l: Loop, a: Address) returns (steps: seq<Step>)
    requires Inv(l) && a in l.live && !Stuck(l, a)
    ensures ValidRun(l, steps) && a !in Run(l, steps).live
    decreases Distance(l, a)
  {
    hide AllAccounted, Body, Phased, Enabled, Apply, Distance, WayOut, Stuck;
    WayOutLeads(l, a);
    var step := WayOut(l, a);
    var r := Apply(l, step);
    var rest: seq<Step> := [];
    if a in r.live { rest := Deletable(r, a); }
    steps := [step] + rest;
    assert steps[0] == step && steps[1..] == rest;
  }

  /** A live channel is never deleted, however the loop goes on, if and only if it was terminated
      while in the pool. */
  lemma {:induction false} LeakTheorem(l: Loop, a: Address)
    requires Reachable(l) && a in l.live
    ensures Inv(l)
    ensures (forall steps | ValidRun(l, steps) :: a in Run(l, steps).live) <==> a in l.pool && l.live[a].terminated
    ensures Holders(l, a) == 0 ==> a in l.pool && l.live[a].terminated
  {
    assert Inv(l);
    assert Accounted(l, a) && Phased(l, a);
    if Stuck(l, a) {
      forall steps | ValidRun(l, steps) ensures a in Run(l, steps).live {
        TerminatedStaysForGood(l, steps, a);
      }
    } else {
      var steps := Deletable(l, a);
    }
  }

  /** Such channels exist: accepted, started, closed with the pool, and read once more. */
  lemma {:induction false} LeakHappens(outcome: Outcome) returns (l: Loop)
    ensures Reachable(l) && 0 in l.live && Holders(l, 0) == 0
  {
    hide Apply, Inv, Enabled;
    var l0 := Init(1);
    InitHolds(1);
    var l1 := JustAccepted(l0);
    var l2 := JustStarted(l1);
    var l3 := JustClosed(l2);
    l := LastRead(l3, outcome);
    FourSteps(l0, l1, l2, l3, l, [Accepted(0), Started(0), CloseAll, ReadDone(0, outcome)]);
  }

  lemma {:induction false} JustAccepted(l: Loop) returns (r: Loop)
    requires Inv(l) && l == Init(1)
    ensures Enabled(l, Accepted(0)) && r == Apply(l, Accepted(0)) && Inv(r)
    ensures r == Loop(1, map[0 := Channel(1, false, false, 0, false)], {}, multiset{Start(0)}, {})
  {
    hide Inv, AllAccounted;
    StepKeeps(l, Accepted(0));
    r := Apply(l, Accepted(0));
    assert r.live == map[0 := Channel(1, false, false, 0, false)];
  }

  lemma {:induction false} JustStarted(l: Loop) returns (r: Loop)
    requires Inv(l) && l == Loop(1, map[0 := Channel(1, false, false, 0, false)], {}, multiset{Start(0)}, {})
    ensures Enabled(l, Started(0)) && r == Apply(l, Started(0)) && Inv(r)
    ensures r == Loop(1, map[0 := Channel(2, false, false, 0, false)], {0}, multiset{Read(0)}, {})
  {
    hide Inv, AllAccounted;
    StepKeeps(l, Started(0));
    r := Apply(l, Started(0));
    assert r.live == map[0 := Channel(2, false, false, 0, false)];
    assert r.handlers == multiset{Read(0)};
  }

  lemma {:induction false} JustClosed(l: Loop) returns (r: Loop)
    requires Inv(l) && l == Loop(1, map[0 := Channel(2, false, false, 0, false)], {0}, multiset{Read(0)}, {})
    ensures Enabled(l, CloseAll) && r == Apply(l, CloseAll) && Inv(r)
    ensures r == Loop(1, map[0 := Channel(2, false, true, 0, false)], {0}, multiset{Read(0)}, {})
  {
    hide Inv, AllAccounted;
    StepKeeps(l, CloseAll);
    r := Apply(l, CloseAll);
    assert r.live == map[0 := Channel(2, false, true, 0, false)];
  }

  lemma {:induction false} LastRead(l: Loop, outcome: Outcome) returns (r: Loop)
    requires Inv(l) && l == Loop(1, map[0 := Channel(2, false, true, 0, false)], {0}, multiset{Read(0)}, {})
    ensures Enabled(l, ReadDone(0, outcome)) && r == Apply(l, ReadDone(0, outcome)) && Inv(r)
    ensures 0 in r.live && Holders(r, 0) == 0
  {
    hide Inv, AllAccounted;
    StepKeeps(l, ReadDone(0, outcome));
    r := Apply(l, ReadDone(0, outcome));
  }

  lemma {:induction false} FourSteps(l0: Loop, l1: Loop, l2: Loop, l3: Loop, l4: Loop, steps: seq<Step>)
    requires |steps| == 4 && Inv(l0) && Inv(l1) && Inv(l2) && Inv(l3) && Inv(l4)
    requires Enabled(l0, steps[0]) && l1 == Apply(l0, steps[0]) && Enabled(l1, steps[1]) && l2 == Apply(l1, steps[1])
    requires Enabled(l2, steps[2]) && l3 == Apply(l2, steps[2]) && Enabled(l3, steps[3]) && l4 == Apply(l3, steps[3])
    ensures ValidRun(l0, steps) && Run(l0, steps) == l4
  {
    hide Enabled, Apply, Inv;
    var three, two, one := steps[1..], steps[1..][1..], steps[1..][1..][1..];
    assert three[0] == steps[1] && two[0] == steps[2] && one[0] == steps[3] && one[1..] == [];
    assert ValidRun(l4, one[1..]) && Run(l4, one[1..]) == l4;
    assert ValidRun(l3, one) && Run(l3, one) == l4;
    assert ValidRun(l2, two) && Run(l2, two) == l4;
    assert ValidRun(l1, three) && Run(l1, three) == l4;
  }

  /** A channel starts or reads at most once at a time, and writes at most once at a time. */
  lemma {:induction false} OneOperationTheorem(l: Loop, a: Address)
    requires Reachable(l)
    ensures l.handlers[Start(a)] + l.handlers[Read(a)] <= 1 && l.handlers[Write(a)] <= 1
    ensures a in l.pool && a in l.live && !l.live[a].terminated ==> l.handlers[Read(a)] == 1
  {
    assert Accounted(l, a) && Phased(l, a);
  }

  /** A start is refused exactly when the pool holds `threshold` channels: the channel is then
      terminated and nothing else happens. Otherwise it joins the pool and reads. */
  lemma {:induction false} StartTheorem(l: Loop, a: Address)
    requires Reachable(l) && Start(a) in l.handlers
    ensures var r := Apply(l, Started(a));
            if |l.pool| == l.threshold then
              r.pool == l.pool && Read(a) !in r.handlers && (a in r.live ==> r.live[a].terminated)
            else
              r.pool == l.pool + {a} && a !in l.pool && Read(a) in r.handlers && a in r.live && !r.live[a].terminated
  {
    StepKeeps(l, Started(a));
    var r := Apply(l, Started(a));
    assert Phased(l, a) && Accounted(r, a);
    BodyAccounted(l, Started(a));
    assert Accounted(Body(l, Started(a)), a);
  }

  /** Closing terminates every channel in the pool and touches nothing else. */
  lemma {:induction false} CloseTheorem(l: Loop)
    requires Reachable(l)
    ensures var r := Apply(l, CloseAll);
            && r.live.Keys == l.live.Keys && r.pool == l.pool && r.handlers == l.handlers
            && forall a | a in l.live ::
                 && (r.live[a].terminated <==> l.live[a].terminated || a in l.pool)
                 && r.live[a].count == l.live[a].count && r.live[a].queued == l.live[a].queued
                 && r.live[a].sending == l.live[a].sending && r.live[a].closedByPeer == l.live[a].closedByPeer
  {
    hide Reachable, Inv;
    ReachableInv(l);
    CloseIs(l);
  }

  // ----- The queue of responses -----

  /** Responses handed to SendInLoop and responses fully written, of one channel. */
  datatype Tally = Tally(handed: nat, sent: nat)

  /** Counts a step. A new channel at the address starts afresh; a terminated one serves no reads. */
  function TallyStep(l: Loop, step: Step, a: Address, t: Tally): Tally {
    if step == Accepted(a) then Tally(0, 0)
    else if step == WriteDone(a, true) then t.(sent := t.sent + 1)
    else if step.ReadDone? && step.channel == a && step.outcome.Served? && a in l.live && !l.live[a].terminated then
      t.(handed := t.handed + step.outcome.responses)
    else t
  }

  ghost function TallyRun(l: Loop, steps: seq<Step>, a: Address, t: Tally): Tally
    requires Inv(l) && ValidRun(l, steps)
    decreases |steps|
  {
    if steps == [] then t
    else StepKeeps(l, steps[0]); TallyRun(Apply(l, steps[0]), steps[1..], a, TallyStep(l, steps[0], a, t))
  }

  lemma {:induction false} SendAllQueues(l: Loop, a: Address, n: nat)
    requires a in l.live
    ensures SendAll(l, a, n).live[a].queued == l.live[a].queued + n
  {
    if n > 0 { SendAllQueues(l, a, n - 1); }
  }

  predicate Matches(l: Loop, a: Address, t: Tally) {
    a in l.live ==> l.live[a].queued == t.handed - t.sent
  }

  lemma {:induction false} ReadQueues(l: Loop, a: Address, outcome: Outcome)
    requires Inv(l) && Read(a) in l.handlers
    ensures a in l.live
    ensures var m := Body(l, ReadDone(a, outcome));
            a in m.live ==> m.live[a].queued == l.live[a].queued + if outcome.Served? && !l.live[a].terminated then outcome.responses else 0
  {
    hide AllAccounted, SendAll;
    assert Phased(l, a);
    EnterKeeps(l, Read(a));
    if outcome.Served? { SendAllQueues(Enter(l, Read(a)), a, outcome.responses); }
  }

  lemma {:induction false} WrittenQueues(l: Loop, a: Address, ok: bool)
    requires Inv(l) && Write(a) in l.handlers
    ensures a in l.live && l.live[a].queued > 0
    ensures var m, more := Body(l, WriteDone(a, ok)), ok && l.live[a].queued > 1;
            && a in m.live && m.live[a].queued == l.live[a].queued - (if ok then 1 else 0)
            && m.handlers[Write(a)] == (if more then 1 else 0) && m.live[a].sending == (more || !ok)
  {
    hide AllAccounted;
    assert Phased(l, a);
    EnterKeeps(l, Write(a));
  }

  lemma {:induction false} StepMatches(l: Loop, step: Step, a: Address, t: Tally)
    requires Inv(l) && Enabled(l, step) && Matches(l, a, t)
    ensures Matches(Apply(l, step), a, TallyStep(l, step, a, t))
  {
    hide AllAccounted, Inv, Body, Leave, Holders;
    if step.CloseAll? {
      CloseIs(l);
    } else if step.channel != a {
      OthersSame(l, step, a);
    } else {
      BodyAccounted(l, step);
      LeaveKeeps(Body(l, step), a);
      LeaveQueues(Body(l, step), a);
      match step
      case Accepted(_) => AcceptQueues(l, a);
      case Started(_) => StartQueues(l, a);
      case ReadDone(_, outcome) => ReadQueues(l, a, outcome);
      case WriteDone(_, ok) => WrittenQueues(l, a, ok);
      case CloseAll =>
    }
  }

  lemma {:induction false} LeaveQueues(l: Loop, a: Address)
    requires a in l.live && l.live[a].count >= 1
    ensures a in Leave(l, a).live ==> Leave(l, a).live[a].queued == l.live[a].queued
  {
  }

  lemma {:induction false} AcceptQueues(l: Loop, a: Address)
    requires Inv(l) && a !in l.live
    ensures var m := Body(l, Accepted(a)); a in m.live && m.live[a].queued == 0
  {
    hide AllAccounted;
  }

  lemma {:induction false} StartQueues(l: Loop, a: Address)
    requires Inv(l) && Start(a) in l.handlers
    ensures a in l.live
    ensures var m := Body(l, Started(a)); a in m.live ==> m.live[a].queued == l.live[a].queued
  {
    hide AllAccounted;
    assert Phased(l, a);
  }

  lemma {:induction false} RunMatches(l: Loop, steps: seq<Step>, a: Address, t: Tally)
    requires Inv(l) && ValidRun(l, steps) && Matches(l, a, t)
    ensures Matches(Run(l, steps), a, TallyRun(l, steps, a, t))
    decreases |steps|
  {
    hide Inv, Enabled, Apply, Matches, TallyStep;
    if steps != [] {
      StepKeeps(l, steps[0]);
      StepMatches(l, steps[0], a, t);
      RunMatches(Apply(l, steps[0]), steps[1..], a, TallyStep(l, steps[0], a, t));
    }
  }

  /** Over every run, the queue of a live channel holds the responses handed to SendInLoop less
      those whose write completed, both counted from the steps. */
  lemma {:induction false} QueueTheorem(threshold: nat, steps: seq<Step>, a: Address)
    requires Inv(Init(threshold)) && ValidRun(Init(threshold), steps)
    ensures var r, t := Run(Init(threshold), steps), TallyRun(Init(threshold), steps, a, Tally(0, 0));
            a in r.live ==> r.live[a].queued == t.handed - t.sent
  {
    hide Inv, ValidRun, Run, TallyRun;
    RunMatches(Init(threshold), steps, a, Tally(0, 0));
  }

  /** A completed write takes one response off the queue, and the next write starts exactly when
      another one is left; a failed write takes none off and starts none. */
  lemma {:induction false} WriteTheorem(l: Loop, a: Address, ok: bool)
    requires Reachable(l) && Write(a) in l.handlers
    ensures a in l.live && l.live[a].queued > 0
    ensures var r, more := Apply(l, WriteDone(a, ok)), ok && l.live[a].queued > 1;
            && (Write(a) in r.handlers <==> more)
            && (a in r.live ==> r.live[a].queued == l.live[a].queued - (if ok then 1 else 0) && r.live[a].sending == (more || !ok))
  {
    hide Inv, Body, AllAccounted, Reachable;
    ReachableInv(l);
    WrittenQueues(l, a, ok);
    BodyAccounted(l, WriteDone(a, ok));
    LeaveKeeps(Body(l, WriteDone(a, ok)), a);
  }

  lemma {:induction false} ReachableInv(l: Loop)
    requires Reachable(l)
    ensures Inv(l)
  {
    hide Inv;
  }
}
