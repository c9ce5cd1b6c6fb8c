/** AtomicEvent (rpc/atomic_event.h) and SyncEvent (rpc/sync_event.h): every interleaving of the
    atomic steps of any number of threads. */
module Events {
  type Thread = nat

  const INT_MAX: int := 0x7fff_ffff

  // ----- AtomicEvent -----

  /** Where a thread is in Wait: before its load, or holding the value it loaded. */
  datatype AtomicPoint = Idle | Loading | Loaded(expected: int)

  /** `notifies` and `waits` count completed calls. */
  datatype AtomicEvent = AtomicEvent(value: int, points: map<Thread, AtomicPoint>, notifies: nat, waits: nat)

  function PointOf(e: AtomicEvent, t: Thread): AtomicPoint {
    if t in e.points then e.points[t] else Idle
  }

  datatype AtomicStep =
    | FetchAdd                                   // Notify
    | EnterWait(thread: Thread)
    | Load(thread: Thread, seen: int)            // relaxed: any value may be seen
    | Exchange(thread: Thread)                   // compare_exchange_weak succeeds
    | ExchangeFails(thread: Thread)              // it fails, perhaps spuriously

  /** A compare-exchange succeeds only on the current value; the counter does not overflow. */
  predicate AtomicEnabled(e: AtomicEvent, step: AtomicStep) {
    match step
    case FetchAdd => e.value < INT_MAX
    case EnterWait(t) => PointOf(e, t).Idle?
    case Load(t, _) => PointOf(e, t).Loading?
    case Exchange(t) => PointOf(e, t).Loaded? && PointOf(e, t).expected == e.value
    case ExchangeFails(t) => PointOf(e, t).Loaded?
  }

  function AtomicApply(e: AtomicEvent, step: AtomicStep): AtomicEvent
    requires AtomicEnabled(e, step)
  {
    match step
    case FetchAdd => e.(value := e.value + 1, notifies := e.notifies + 1)
    case EnterWait(t) => e.(points := e.points[t := Loading])
    case Load(t, seen) => e.(points := e.points[t := if seen > 0 then Loaded(seen) else Loading])
    case Exchange(t) => e.(value := PointOf(e, t).expected - 1, points := e.points[t := Idle], waits := e.waits + 1)
    case ExchangeFails(t) => e.(points := e.points[t := Loading])
  }

  predicate AtomicRun(e: AtomicEvent, steps: seq<AtomicStep>)
    decreases |steps|
  {
    steps == [] || (AtomicEnabled(e, steps[0]) && AtomicRun(AtomicApply(e, steps[0]), steps[1..]))
  }

  function AtomicAfter(e: AtomicEvent, steps: seq<AtomicStep>): AtomicEvent
    requires AtomicRun(e, steps)
    decreases |steps|
  {
    if steps == [] then e else AtomicAfter(AtomicApply(e, steps[0]), steps[1..])
  }

  predicate AtomicInit(e: AtomicEvent) {
    e == AtomicEvent(0, map[], 0, 0)
  }

  /** Only a positive loaded value reaches the compare-exchange. */
  predicate AtomicInv(e: AtomicEvent) {
    && e.value == e.notifies - e.waits && e.value >= 0
    && forall t | t in e.points :: e.points[t].Loaded? ==> e.points[t].expected > 0
  }

  lemma {:induction false} AtomicRunKeeps(e: AtomicEvent, steps: seq<AtomicStep>)
    requires AtomicInv(e) && AtomicRun(e, steps)
    ensures AtomicInv(AtomicAfter(e, steps))
    decreases |steps|
  {
    if steps != [] {
      assert AtomicInv(AtomicApply(e, steps[0]));
      AtomicRunKeeps(AtomicApply(e, steps[0]), steps[1..]);
    }
  }

  /** How many Notify calls and how many completed Wait calls the steps make. */
  function Notifies(steps: seq<AtomicStep>): nat {
    if steps == [] then 0 else (if steps[0].FetchAdd? then 1 else 0) + Notifies(steps[1..])
  }

  function Waits(steps: seq<AtomicStep>): nat {
    if steps == [] then 0 else (if steps[0].Exchange? then 1 else 0) + Waits(steps[1..])
  }

  lemma {:induction false} AtomicCounts(e: AtomicEvent, steps: seq<AtomicStep>)
    requires AtomicRun(e, steps)
    ensures var r := AtomicAfter(e, steps);
            r.notifies == e.notifies + Notifies(steps) && r.waits == e.waits + Waits(steps)
    decreases |steps|
  {
    if steps != [] { AtomicCounts(AtomicApply(e, steps[0]), steps[1..]); }
  }

  /** After every interleaving the value is the number of notifies less the number of completed waits
      among the steps, never negative: each notify lets exactly one wait through. */
  lemma {:induction false} AtomicTheorem(start: AtomicEvent, steps: seq<AtomicStep>)
    requires AtomicInit(start) && AtomicRun(start, steps)
    ensures AtomicAfter(start, steps).value == Notifies(steps) - Waits(steps) >= 0
  {
    hide AtomicRun, AtomicAfter, AtomicInv, AtomicInit, Notifies, Waits;
    AtomicInitHolds(start);
    AtomicRunKeeps(start, steps);
    AtomicCounts(start, steps);
    AtomicCount(AtomicAfter(start, steps));
  }

  lemma {:induction false} AtomicInitHolds(e: AtomicEvent)
    requires AtomicInit(e)
    ensures AtomicInv(e) && e.notifies == 0 && e.waits == 0
  {
  }

  lemma {:induction false} AtomicCount(e: AtomicEvent)
    requires AtomicInv(e)
    ensures e.value == e.notifies - e.waits && e.value >= 0
  {
  }

  /** The Wait calls that thread t has made and those it has completed. */
  function Entered(steps: seq<AtomicStep>, t: Thread): nat {
    if steps == [] then 0 else (if steps[0] == EnterWait(t) then 1 else 0) + Entered(steps[1..], t)
  }

  function Passed(steps: seq<AtomicStep>, t: Thread): nat {
    if steps == [] then 0 else (if steps[0] == Exchange(t) then 1 else 0) + Passed(steps[1..], t)
  }

  /** No thread leaves Wait without taking from the value: it is inside exactly while a call of its
      has no exchange of its own. */
  lemma {:induction false} WaitersPay(e: AtomicEvent, steps: seq<AtomicStep>, t: Thread)
    requires AtomicRun(e, steps)
    ensures (if PointOf(AtomicAfter(e, steps), t).Idle? then 0 else 1) ==
            (if PointOf(e, t).Idle? then 0 else 1) + Entered(steps, t) - Passed(steps, t)
    decreases |steps|
  {
    if steps != [] { WaitersPay(AtomicApply(e, steps[0]), steps[1..], t); }
  }

  /** A waiter that sees the current, positive value and is not disturbed gets through, and it takes
      exactly one from the value; at 0 no waiter does. */
  lemma {:induction false} WaiterPasses(e: AtomicEvent, t: Thread)
    requires AtomicInv(e) && PointOf(e, t).Idle?
    ensures e.value > 0 ==>
              var steps := [EnterWait(t), Load(t, e.value), Exchange(t)];
              && AtomicRun(e, steps) && AtomicAfter(e, steps).value == e.value - 1 && PointOf(AtomicAfter(e, steps), t).Idle?
    ensures e.value == 0 ==> forall u :: !AtomicEnabled(e, Exchange(u))
  {
    if e.value > 0 {
      var steps := [EnterWait(t), Load(t, e.value), Exchange(t)];
      var e1 := AtomicApply(e, steps[0]);
      var e2 := AtomicApply(e1, steps[1]);
      var e3 := AtomicApply(e2, steps[2]);
      var two, one := steps[1..], steps[1..][1..];
      assert two[0] == steps[1] && one[0] == steps[2] && one[1..] == [];
      assert AtomicRun(e3, one[1..]) && AtomicAfter(e3, one[1..]) == e3;
      assert AtomicRun(e2, one) && AtomicAfter(e2, one) == e3;
      assert AtomicRun(e1, two) && AtomicAfter(e1, two) == e3;
    }
  }

  // ----- SyncEvent -----

  /** Where a thread is. Waiting: in Wait, before the mutex is taken for the first time or after a
      wake-up. Sleeping: inside signal_.wait, the mutex released. Testing: at `value_ == 0` with
      the mutex. Taking: past the loop with the mutex. Notifying: before the mutex is taken.
      Adding: with the mutex, before ++value_. Signalling: before notify_all. Leaving: about to
      release the mutex. */
  datatype SyncPoint = Out | Waiting | Sleeping | Testing | Taking | Notifying | Adding | Signalling | Leaving

  datatype SyncEvent = SyncEvent(
    reset: bool, value: int, owner: set<Thread>, points: map<Thread, SyncPoint>, notifies: nat, waits: nat)

  function SyncPointOf(e: SyncEvent, t: Thread): SyncPoint {
    if t in e.points then e.points[t] else Out
  }

  /** The points at which a thread holds the mutex. */
  predicate Holds(p: SyncPoint) {
    p.Testing? || p.Taking? || p.Adding? || p.Signalling? || p.Leaving?
  }

  datatype SyncStep =
    | CallWait(thread: Thread)
    | CallNotify(thread: Thread)
    | Lock(thread: Thread)
    | Test(thread: Thread)                       // value_ == 0: wait, else leave the loop
    | WakeUp(thread: Thread)                     // spurious
    | Take(thread: Thread)
    | Add(thread: Thread)
    | Signal(thread: Thread)
    | Unlock(thread: Thread)

  predicate SyncEnabled(e: SyncEvent, step: SyncStep) {
    var p := SyncPointOf(e, step.thread);
    match step
    case CallWait(_) => p.Out?
    case CallNotify(_) => p.Out?
    case Lock(_) => (p.Waiting? || p.Notifying?) && e.owner == {}
    case Test(_) => p.Testing?
    case WakeUp(_) => p.Sleeping?
    case Take(_) => p.Taking?
    case Add(_) => p.Adding? && e.value < INT_MAX
    case Signal(_) => p.Signalling?
    case Unlock(_) => p.Leaving?
  }

  function Move(e: SyncEvent, t: Thread, p: SyncPoint): SyncEvent {
    e.(points := e.points[t := p])
  }

  function SyncApply(e: SyncEvent, step: SyncStep): SyncEvent
    requires SyncEnabled(e, step)
  {
    var t := step.thread;
    match step
    case CallWait(_) => Move(e, t, Waiting)
    case CallNotify(_) => Move(e, t, Notifying)
    case Lock(_) => Move(e, t, if SyncPointOf(e, t).Waiting? then Testing else Adding).(owner := {t})
    case Test(_) => if e.value == 0 then Move(e, t, Sleeping).(owner := {}) else Move(e, t, Taking)
    case WakeUp(_) => Move(e, t, Waiting)
    case Take(_) => Move(e, t, Leaving).(value := if e.reset then 0 else e.value - 1, waits := e.waits + 1)
    case Add(_) => Move(e, t, Signalling).(value := e.value + 1, notifies := e.notifies + 1)
    case Signal(_) => Move(WakeAll(e), t, Leaving)
    case Unlock(_) => Move(e, t, Out).(owner := {})
  }

  /** notify_all. */
  function WakeAll(e: SyncEvent): SyncEvent {
    e.(points := map t | t in e.points :: if e.points[t].Sleeping? then Waiting else e.points[t])
  }

  predicate SyncRun(e: SyncEvent, steps: seq<SyncStep>)
    decreases |steps|
  {
    steps == [] || (SyncEnabled(e, steps[0]) && SyncRun(SyncApply(e, steps[0]), steps[1..]))
  }

  function SyncAfter(e: SyncEvent, steps: seq<SyncStep>): SyncEvent
    requires SyncRun(e, steps)
    decreases |steps|
  {
    if steps == [] then e else SyncAfter(SyncApply(e, steps[0]), steps[1..])
  }

  function NewSync(autoReset: bool): SyncEvent {
    SyncEvent(autoReset, 0, {}, map[], 0, 0)
  }

  /** The count: exact without auto-reset, an upper bound with it. */
  predicate Conserved(e: SyncEvent) {
    && e.value >= 0 && e.value + e.waits <= e.notifies
    && (!e.reset ==> e.value + e.waits == e.notifies)
  }

  /** The owner of the mutex is the one thread at a point that holds it. */
  predicate Exclusive(e: SyncEvent) {
    && (forall t | t in e.owner :: t in e.points && Holds(e.points[t]))
    && (forall t | t in e.points && Holds(e.points[t]) :: e.owner == {t})
  }

  /** A thread past the loop finds a positive value: the CHECK of sync_event.h:21. */
  predicate TakersSafe(e: SyncEvent) {
    forall t | t in e.points :: e.points[t].Taking? ==> e.value > 0
  }

  /** No lost wake-up: while a thread sleeps the value is 0, unless a notifier is about to signal. */
  predicate NoLostWakeUp(e: SyncEvent) {
    forall t | t in e.points && e.points[t].Sleeping? ::
      e.value == 0 || exists u | u in e.owner :: u in e.points && e.points[u].Signalling?
  }

  predicate SyncInv(e: SyncEvent) {
    Conserved(e) && Exclusive(e) && TakersSafe(e) && NoLostWakeUp(e)
  }

  lemma {:induction false} SyncStepKeeps(e: SyncEvent, step: SyncStep)
    requires SyncInv(e) && SyncEnabled(e, step)
    ensures SyncInv(SyncApply(e, step))
  {
    var t, r := step.thread, SyncApply(e, step);
    assert Exclusive(r);
    assert Conserved(r) && TakersSafe(r);
    assert NoLostWakeUp(r);
  }

  lemma {:induction false} SyncRunKeeps(e: SyncEvent, steps: seq<SyncStep>)
    requires SyncInv(e) && SyncRun(e, steps)
    ensures SyncInv(SyncAfter(e, steps)) && SyncAfter(e, steps).reset == e.reset
    decreases |steps|
  {
    hide SyncInv, SyncEnabled;
    if steps != [] {
      SyncStepKeeps(e, steps[0]);
      SyncRunKeeps(SyncApply(e, steps[0]), steps[1..]);
    }
  }

  /** How many Notify calls and how many completed Wait calls the steps make. */
  function Adds(steps: seq<SyncStep>): nat {
    if steps == [] then 0 else (if steps[0].Add? then 1 else 0) + Adds(steps[1..])
  }

  function Takes(steps: seq<SyncStep>): nat {
    if steps == [] then 0 else (if steps[0].Take? then 1 else 0) + Takes(steps[1..])
  }

  /** What a run of notifies and waits leaves of `value` when every wait takes all there is. */
  function SinceLastTake(steps: seq<SyncStep>, value: int): int {
    if steps == [] then value
    else SinceLastTake(steps[1..], if steps[0].Take? then 0 else if steps[0].Add? then value + 1 else value)
  }

  lemma {:induction false} SyncCounts(e: SyncEvent, steps: seq<SyncStep>)
    requires SyncRun(e, steps)
    ensures var r := SyncAfter(e, steps);
            && r.notifies == e.notifies + Adds(steps) && r.waits == e.waits + Takes(steps)
            && (if e.reset then r.value == SinceLastTake(steps, e.value) else r.value == e.value + Adds(steps) - Takes(steps))
    decreases |steps|
  {
    if steps != [] { SyncCounts(SyncApply(e, steps[0]), steps[1..]); }
  }

  /** After every interleaving of Notify and Wait: without auto-reset the value is the number of
      notifies less the number of completed waits among the steps, and with it the number of notifies
      since the last completed wait; it is never negative, completed waits never exceed notifies, the
      CHECK in Wait holds, and no wake-up is lost. */
  lemma {:induction false} SyncTheorem(autoReset: bool, steps: seq<SyncStep>)
    requires SyncRun(NewSync(autoReset), steps)
    ensures var e := SyncAfter(NewSync(autoReset), steps);
            && e.value == (if autoReset then SinceLastTake(steps, 0) else Adds(steps) - Takes(steps))
            && e.value >= 0 && e.value + Takes(steps) <= Adds(steps)
            && TakersSafe(e) && NoLostWakeUp(e)
  {
    hide SyncRun, SyncAfter, Adds, Takes, SinceLastTake;
    SyncRunKeeps(NewSync(autoReset), steps);
    SyncCounts(NewSync(autoReset), steps);
  }

  /** A thread inside Wait that has not taken yet, and one inside Notify that has not added yet. */
  predicate OwesTake(p: SyncPoint) {
    p.Waiting? || p.Sleeping? || p.Testing? || p.Taking?
  }

  predicate OwesAdd(p: SyncPoint) {
    p.Notifying? || p.Adding?
  }

  function StepsOf(steps: seq<SyncStep>, step: SyncStep): nat {
    if steps == [] then 0 else (if steps[0] == step then 1 else 0) + StepsOf(steps[1..], step)
  }

  /** No thread leaves Wait without taking, or Notify without adding. */
  lemma {:induction false} CallersPay(e: SyncEvent, steps: seq<SyncStep>, t: Thread)
    requires SyncRun(e, steps)
    ensures var r := SyncAfter(e, steps);
            && (if OwesTake(SyncPointOf(r, t)) then 1 else 0) ==
               (if OwesTake(SyncPointOf(e, t)) then 1 else 0) + StepsOf(steps, CallWait(t)) - StepsOf(steps, Take(t))
            && (if OwesAdd(SyncPointOf(r, t)) then 1 else 0) ==
               (if OwesAdd(SyncPointOf(e, t)) then 1 else 0) + StepsOf(steps, CallNotify(t)) - StepsOf(steps, Add(t))
    decreases |steps|
  {
    if steps != [] { CallersPay(SyncApply(e, steps[0]), steps[1..], t); }
  }
}
