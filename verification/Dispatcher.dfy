/** The reference count, the dispatcher's pool and the lifetime part of a channel as objects
    (rpc/detail/ref_count.h:21-38, network_dispatcher.cc:21-63, rpc_channel.cc:48-173). Each method is
    proved against the operation or step of module Ownership that it performs, for the state of all
    channels, so the theorems over runs are theorems about these methods. */
module Dispatcher {
  import opened Runs = Ownership

  /** RefCount and the RPCChannel that derives from it. */
  class RPCChannel {
    var count: int
    var closedByPeer: bool
    var terminated: bool
    var queued: nat
    var sending: bool

    /** A new channel is adopted by one pointer, without a Ref (rpc_server_impl.cc:80-86). */
    constructor ()
      ensures Value() == Channel(1, false, false, 0, false)
    {
      count, closedByPeer, terminated, queued, sending := 1, false, false, 0, false;
    }

    function Value(): Channel
      reads this
    {
      Channel(count, closedByPeer, terminated, queued, sending)
    }
  }

  lemma {:induction false} ClosingIs(l: Loop)
    requires Inv(l)
    ensures Apply(l, CloseAll) == TerminateAll(l)
  {
    hide Inv;
    CloseIs(l);
  }

  lemma {:induction false} PoolIsLive(l: Loop)
    requires Inv(l)
    ensures l.pool <= l.live.Keys
  {
    forall a | a in l.pool ensures a in l.live { assert Accounted(l, a); }
  }

  /** `channels` is the heap, by address: deletion takes a channel out of it. */
  class NetworkDispatcher {
    const threshold: nat
    var channels: map<Address, RPCChannel>
    var channelPool: set<Address>
    var handlers: multiset<Handler>
    ghost var running: set<Address>

    /** Different addresses, different objects. */
    ghost predicate Valid()
      reads this
    {
      forall a, b | a in channels && b in channels && a != b :: channels[a] != channels[b]
    }

    ghost function State(): Loop
      reads this, channels.Values
    {
      Loop(threshold, map a | a in channels :: channels[a].Value(), channelPool, handlers, running)
    }

    constructor (numChannelsThreshold: nat)
      ensures Valid() && State() == Init(numChannelsThreshold)
    {
      threshold, channels, channelPool, handlers, running := numChannelsThreshold, map[], {}, multiset{}, {};
    }

    method Ref(a: Address)
      requires Valid() && a in channels
      modifies channels[a]
      ensures Valid() && State() == Runs.Ref(old(State()), a)
    {
      channels[a].count := channels[a].count + 1;
    }

    /** `delete this` when the count reaches zero; the CHECK of ref_count.h:28 is the precondition. */
    method UnRef(a: Address)
      requires Valid() && a in channels && channels[a].count >= 1
      modifies this`channels, channels[a]
      ensures Valid() && State() == Runs.UnRef(old(State()), a) && channels.Values <= old(channels.Values)
    {
      var channel := channels[a];
      channel.count := channel.count - 1;
      if channel.count == 0 {
        channels := channels - {a};
      }
    }

    /** counted_this() bound into the handler of an asynchronous operation. */
    method Bind(h: Handler)
      requires Valid() && h.channel in channels
      modifies this`handlers, channels[h.channel]
      ensures Valid() && State() == Runs.Bind(old(State()), h)
    {
      Ref(h.channel);
      handlers := handlers + multiset{h};
    }

    /** False when the pool is full; the CHECK of network_dispatcher.cc:47 is the precondition. */
    method SaveChannel(a: Address) returns (saved: bool)
      requires Valid() && a in channels && a !in channelPool
      modifies this`channelPool, channels[a]
      ensures Valid() && saved == !PoolFull(old(State()))
      ensures State() == if saved then Runs.SaveChannel(old(State()), a) else old(State())
    {
      if |channelPool| == threshold { return false; }
      channelPool := channelPool + {a};
      Ref(a);
      saved := true;
    }

    method ReleaseChannel(a: Address)
      requires Valid() && a in channels && channels[a].count >= 1
      modifies this`channels, this`channelPool, channels[a]
      ensures Valid() && State() == Runs.ReleaseChannel(old(State()), a) && channels.Values <= old(channels.Values)
    {
      hide Runs.UnRef;
      if a in channelPool {
        channelPool := channelPool - {a};
        assert State() == old(State()).(pool := channelPool);
        UnRef(a);
      }
    }

    method WriteInLoop(a: Address)
      requires Valid() && a in channels
      modifies this`handlers, channels[a]
      ensures Valid() && State() == Runs.WriteInLoop(old(State()), a)
    {
      var channel := channels[a];
      if channel.queued == 0 { return; }
      if channel.sending { return; }
      channel.sending := true;
      assert State() == Set(old(State()), a, channel.Value());
      Bind(Write(a));
    }

    /** n responses through SendInLoop. */
    method SendAll(a: Address, n: nat)
      requires Valid() && a in channels
      modifies this`handlers, channels[a]
      ensures Valid() && State() == Runs.SendAll(old(State()), a, n)
    {
      hide Runs.WriteInLoop, Set;
      for k := 0 to n
        invariant Valid() && a in channels && State() == Runs.SendAll(old(State()), a, k)
      {
        SendInLoop(a);
      }
    }

    /** The push of SendInLoop and its call of WriteInLoop. */
    method SendInLoop(a: Address)
      requires Valid() && a in channels
      modifies this`handlers, channels[a]
      ensures Valid()
      ensures var l := old(State());
              State() == Runs.WriteInLoop(Set(l, a, l.live[a].(queued := l.live[a].queued + 1)), a)
    {
      hide Runs.WriteInLoop;
      var channel := channels[a];
      channel.queued := channel.queued + 1;
      assert State() == Set(old(State()), a, channel.Value());
      WriteInLoop(a);
    }

    // ----- Whole handlers: the loop takes one, runs it and destroys its pointer -----

    method Enter(h: Handler)
      requires Valid() && Inv(State()) && h in handlers
      modifies this`handlers, this`running
      ensures Valid() && State() == Runs.Enter(old(State()), h) && AllAccounted(State())
      ensures h.channel in channels && channels[h.channel].count >= 1
    {
      EnterKeeps(State(), h);
      handlers, running := handlers - multiset{h}, {h.channel};
    }

    method Leave(a: Address)
      requires Valid() && a in channels && channels[a].count >= 1
      modifies this`channels, this`running, channels[a]
      ensures Valid() && State() == Runs.Leave(old(State()), a)
    {
      running := {};
      assert State() == old(State()).(running := {});
      UnRef(a);
    }

    /** rpc_server_impl.cc:80-86 and StartChannel, at memory that is not in use. */
    method Accepted(a: Address)
      requires Valid() && Inv(State()) && a !in channels
      modifies this, channels.Values
      ensures Valid() && State() == Apply(old(State()), Step.Accepted(a))
    {
      hide AllAccounted, Runs.Leave, Runs.Bind, NewChannel;
      ghost var l := State();
      BodyAccounted(l, Step.Accepted(a));
      LeaveKeeps(Body(l, Step.Accepted(a)), a);
      Allocate(a);
      Bind(Start(a));
      Leave(a);
    }

    method Allocate(a: Address)
      requires Valid() && a !in channels
      modifies this`channels, this`running
      ensures Valid() && State() == NewChannel(old(State()), a)
      ensures a in channels && fresh(channels[a]) && channels == old(channels)[a := channels[a]]
    {
      var channel := new RPCChannel();
      channels, running := channels[a := channel], {a};
      assert State().live == old(State()).live[a := channel.Value()];
    }

    /** network_dispatcher.cc:54-63. */
    method StartChannelInLoop(a: Address)
      requires Valid() && Inv(State()) && Start(a) in handlers
      modifies this, channels.Values
      ensures Valid() && State() == Apply(old(State()), Started(a))
    {
      hide AllAccounted, Runs.StartBody, Runs.Enter, Runs.Leave;
      ghost var l := State();
      assert Phased(l, a);
      BodyAccounted(l, Started(a));
      LeaveKeeps(Body(l, Started(a)), a);
      Enter(Start(a));
      StartBody(a);
      Leave(a);
    }

    method StartBody(a: Address)
      requires Valid() && a in channels && a !in channelPool
      modifies this`channelPool, this`handlers, channels[a]
      ensures Valid() && State() == Runs.StartBody(old(State()), a)
    {
      hide Runs.SaveChannel, Runs.Bind;
      var saved := SaveChannel(a);
      if !saved {
        channels[a].terminated := true;
        assert State() == Set(old(State()), a, channels[a].Value());
      } else {
        Bind(Read(a));
      }
    }

    /** rpc_channel.cc:48-104. */
    method ReadInLoop(a: Address, outcome: Outcome)
      requires Valid() && Inv(State()) && Read(a) in handlers
      modifies this, channels.Values
      ensures Valid() && State() == Apply(old(State()), ReadDone(a, outcome))
    {
      hide AllAccounted, Runs.ReadBody, Runs.Leave;
      ghost var l := State();
      BodyAccounted(l, ReadDone(a, outcome));
      LeaveKeeps(Body(l, ReadDone(a, outcome)), a);
      Enter(Read(a));
      ReadBody(a, outcome);
      Leave(a);
    }

    method ReadBody(a: Address, outcome: Outcome)
      requires Valid() && a in channels && channels[a].count >= 1
      modifies this`handlers, this`channels, this`channelPool, channels[a]
      ensures Valid() && State() == Runs.ReadBody(old(State()), a, outcome) && channels.Values <= old(channels.Values)
    {
      hide Runs.SendAll, Runs.ReleaseChannel;
      var channel := channels[a];
      if channel.terminated { return; }
      if outcome.Failed? {
        if !channel.closedByPeer {
          channel.closedByPeer := true;
          assert State() == Set(old(State()), a, channel.Value());
          ReleaseChannel(a);
        }
        return;
      }
      SendAll(a, outcome.responses);
      Bind(Read(a));
    }

    /** rpc_channel.cc:131-155. */
    method Written(a: Address, ok: bool)
      requires Valid() && Inv(State()) && Write(a) in handlers
      modifies this, channels.Values
      ensures Valid() && State() == Apply(old(State()), WriteDone(a, ok))
    {
      hide AllAccounted, Runs.WrittenBody, Runs.Leave;
      ghost var l := State();
      BodyAccounted(l, WriteDone(a, ok));
      LeaveKeeps(Body(l, WriteDone(a, ok)), a);
      Enter(Write(a));
      WrittenBody(a, ok);
      Leave(a);
    }

    method WrittenBody(a: Address, ok: bool)
      requires Valid() && a in channels
      modifies this`handlers, channels[a]
      ensures Valid() && State() == Runs.WrittenBody(old(State()), a, ok)
    {
      hide Runs.WriteInLoop;
      var channel := channels[a];
      if ok && channel.queued != 0 {
        channel.queued, channel.sending := channel.queued - 1, false;
        assert State() == Set(old(State()), a, channel.Value());
        WriteInLoop(a);
      }
    }

    /** network_dispatcher.cc:21-26: TerminateInLoop on every pooled channel. */
    method CloseAllChannelsInLoop()
      requires Valid() && Inv(State())
      modifies channels.Values
      ensures Valid() && State() == Apply(old(State()), CloseAll)
    {
      hide Inv;
      ClosingIs(State());
      PoolIsLive(State());
      TerminatePool();
    }

    method TerminatePool()
      requires Valid() && channelPool <= channels.Keys
      modifies channels.Values
      ensures Valid() && State() == TerminateAll(old(State()))
    {
      var left := channelPool;
      while left != {}
        invariant left <= channelPool
        invariant forall a | a in channels :: channels[a].Value() == Closed(old(channels[a].Value()), a in channelPool && a !in left)
        decreases left
      {
        var a :| a in left;
        TerminateInLoop(a);
        left := left - {a};
      }
      forall a | a in channels ensures State().live[a] == TerminateAll(old(State())).live[a] { }
    }

    function Closed(c: Channel, terminated: bool): Channel {
      if terminated then c.(terminated := true) else c
    }

    method TerminateInLoop(a: Address)
      requires Valid() && a in channels
      modifies channels[a]
      ensures channels[a].Value() == old(channels[a].Value()).(terminated := true)
    {
      channels[a].terminated := true;
    }
  }
}
