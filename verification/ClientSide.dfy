/** The client as the source writes it: RPCData's output side, SessionManager and ClientRPCChannel
    on top of RPCChannel's write half. Each method is proved against the step of module Protocol
    that it performs, so the theorems over runs are theorems about these methods. */
module ClientSide {
  import opened Words
  import opened Metadata
  import opened Frames
  import opened Protocol
  import Safety

  lemma {:induction false} ResendNone(c: Client)
    ensures Resend(c, 0) == c && ResendLaunched(c, 0) == []
  {
  }

  lemma {:induction false} ResendNext(c: Client, k: nat)
    ensures var r := Resend(c, k);
            if k in r.sessions then
              var e := Enqueue(SetPending(r, k, false), k);
              Resend(c, k + 1) == Protocol.WriteInLoop(e) && ResendLaunched(c, k + 1) == ResendLaunched(c, k) + Launched(e)
            else Resend(c, k + 1) == r && ResendLaunched(c, k + 1) == ResendLaunched(c, k)
  {
    hide Protocol.WriteInLoop, Launched, Enqueue, SetPending;
  }

  /** RPCData for output: owned by a session, pointed to by pending_. */
  class RPCData {
    const call: nat
    const request: Message
    var isPending: bool

    constructor (call: nat, request: Message)
      ensures this.call == call && this.request == request && !isPending
    {
      this.call, this.request, isPending := call, request, false;
    }
  }

  class SessionManager {
    var nextSeq: nat
    var sessions: map<nat, RPCData>

    ghost predicate Valid()
      reads this
    {
      forall k | k in sessions :: k < nextSeq && sessions[k].call == k
    }

    ghost function Sessions(): map<nat, Session>
      reads this, sessions.Values
    {
      map k | k in sessions :: Session(sessions[k].request, sessions[k].isPending)
    }

    constructor ()
      ensures Valid() && nextSeq == 0 && Sessions() == map[]
    {
      nextSeq, sessions := 0, map[];
    }

    /** The CHECK that the number is new never fails. */
    method SaveSession(r: Request) returns (data: RPCData)
      requires Valid() && nextSeq < 0x1_0000_0000_0000_0000 && Sendable(r.payload)
      modifies this
      ensures Valid() && fresh(data) && nextSeq == old(nextSeq) + 1
      ensures data.call == old(nextSeq) && Carries(data.request, old(nextSeq), r) && !data.isPending
      ensures data.request == RequestMessage(old(nextSeq), r)
      ensures sessions == old(sessions)[old(nextSeq) := data]
      ensures Sessions() == old(Sessions())[old(nextSeq) := Session(data.request, false)]
    {
      data := new RPCData(nextSeq, RequestMessage(nextSeq, r));
      assert nextSeq !in sessions;
      sessions := sessions[nextSeq := data];
      nextSeq := nextSeq + 1;
    }

    method ReleaseSession(n: nat) returns (data: RPCData?)
      requires Valid()
      modifies this
      ensures Valid() && nextSeq == old(nextSeq)
      ensures data == (if n in old(sessions) then old(sessions)[n] else null)
      ensures sessions == old(sessions) - {n} && Sessions() == old(Sessions()) - {n}
    {
      if n !in sessions { return null; }
      data := sessions[n];
      sessions := sessions - {n};
    }
  }

  /** ClientRPCChannel with its RPCChannel. `wire` records what was given to async_write on the
      current socket; the other outstanding operations are as in Protocol.Client. */
  class ClientRPCChannel {
    const manager: SessionManager
    const autoReconnect: bool
    var pending: seq<RPCData>
    var closedByPeer: bool
    var terminated: bool
    var reading: nat
    var connecting: nat
    var writing: seq<nat>
    var wire: seq<Message>
    ghost var queued: seq<nat>
    ghost var sent: seq<nat>
    var finishing: RPCData?

    /** Everything in pending_ is owned by a session. */
    ghost predicate Valid()
      reads this, manager, manager.sessions.Values
    {
      && manager.Valid()
      && (forall i | 0 <= i < |pending| :: pending[i].call in manager.sessions && pending[i] == manager.sessions[pending[i].call])
      && (finishing != null ==> forall k | k in manager.sessions :: manager.sessions[k] != finishing)
    }

    ghost function State(): Client
      reads this, manager, manager.sessions.Values, finishing
    {
      Client(manager.nextSeq, manager.Sessions(), seq(|pending|, i requires 0 <= i < |pending| reads this => pending[i].call),
             closedByPeer, terminated, autoReconnect, reading, connecting, writing, queued, sent,
             if finishing == null then None else Some(Session(finishing.request, finishing.isPending)))
    }

    constructor (manager: SessionManager, autoReconnect: bool)
      requires manager.Valid() && manager.nextSeq == 0 && manager.sessions == map[]
      ensures Valid() && this.manager == manager && wire == []
      ensures State() == Client(0, map[], [], false, false, autoReconnect, 1, 0, [], [], [], None)
    {
      this.manager, this.autoReconnect := manager, autoReconnect;
      pending, closedByPeer, terminated, reading, connecting := [], false, false, 1, 0;
      writing, wire, queued, sent, finishing := [], [], [], [], null;
    }

    /** rpc_channel.cc:106-129. */
    method WriteInLoop()
      requires Valid()
      modifies this`writing, this`wire, manager.sessions.Values`isPending
      ensures Valid()
      ensures State() == Protocol.WriteInLoop(old(State()))
      ensures wire == old(wire) + Launched(old(State()))
    {
      if pending == [] { return; }
      var first := pending[0];
      assert State().pending[0] == first.call && State().sessions[first.call].isPending == first.isPending;
      if first.isPending { return; }
      assert first in manager.sessions.Values;
      first.isPending := true;
      writing, wire := writing + [first.call], wire + [first.request];
    }

    /** rpc_channel.h:38-42. */
    method SendInLoop(data: RPCData)
      requires Valid() && data.call in manager.sessions && data == manager.sessions[data.call]
      modifies this`pending, this`queued, this`writing, this`wire, manager.sessions.Values`isPending
      ensures Valid()
      ensures State() == Protocol.WriteInLoop(Enqueue(old(State()), data.call))
      ensures wire == old(wire) + Launched(Enqueue(old(State()), data.call))
    {
      pending, queued := pending + [data], queued + [data.call];
      assert State() == Enqueue(old(State()), data.call);
      WriteInLoop();
    }

    /** ClientRPCChannel::SendInLoop, which CallMethod reaches: save the session and send its data. */
    method Call(r: Request)
      requires Valid() && manager.nextSeq < 0x1_0000_0000_0000_0000 && Sendable(r.payload)
      modifies this`pending, this`queued, this`writing, this`wire, manager, manager.sessions.Values`isPending
      ensures Valid()
      ensures var c := SaveAndEnqueue(old(State()), RequestMessage(old(manager.nextSeq), r));
              State() == Protocol.WriteInLoop(c) && wire == old(wire) + Launched(c)
    {
      hide Protocol.WriteInLoop, Launched;
      var data := manager.SaveSession(r);
      assert State() == old(State()).(nextSeq := manager.nextSeq, sessions := manager.Sessions());
      SendInLoop(data);
    }

    /** rpc_channel.cc:131-155. The CHECKs are the assertions: in every reachable state they hold. */
    method Written(error: bool)
      requires Valid() && writing != [] && Safety.MarkInv(State())
      modifies this`pending, this`sent, this`writing, this`wire, manager.sessions.Values`isPending
      ensures Valid()
      ensures error ==> State() == old(State()).(writing := old(writing)[1..]) && wire == old(wire)
      ensures !error ==> old(pending) != [] && State() == Protocol.WriteInLoop(PopWritten(old(State())))
      ensures !error ==> wire == old(wire) + Launched(PopWritten(old(State())))
    {
      if error {
        writing := writing[1..];
        return;
      }
      PopFirst();
      hide Protocol.WriteInLoop, Launched, PopWritten, Safety.MarkInv;
      WriteInLoop();
    }

    /** rpc_channel.cc:139-153: the checks and the pop of Written. */
    method PopFirst()
      requires Valid() && writing != [] && Safety.MarkInv(State())
      modifies this`pending, this`sent, this`writing
      ensures Valid() && old(pending) != [] && State() == PopWritten(old(State()))
    {
      assert |State().pending| == |pending| && pending != [];
      var first := pending[0];
      assert State().pending[0] == first.call && first.isPending;
      writing, pending, sent := writing[1..], pending[1..], sent + [first.call];
      assert State().pending == old(State()).pending[1..];
    }

    /** client_rpc_channel.cc:34-44: a std::map iterates in key order. */
    method SendPendingSessions()
      requires Valid()
      modifies this`pending, this`queued, this`writing, this`wire, manager.sessions.Values`isPending
      ensures Valid()
      ensures State() == Resend(old(State()), manager.nextSeq)
      ensures wire == old(wire) + ResendLaunched(old(State()), manager.nextSeq)
    {
      hide Resend, ResendLaunched, Protocol.WriteInLoop, Launched, Enqueue, SetPending;
      ghost var c := State();
      ResendNone(c);
      for k := 0 to manager.nextSeq
        invariant Valid()
        invariant State() == Resend(c, k)
        invariant wire == old(wire) + ResendLaunched(c, k)
      {
        ResendNext(c, k);
        if k in manager.sessions { ResendOne(k); }
      }
    }

    /** One turn of that loop. */
    method ResendOne(k: nat)
      requires Valid() && k in manager.sessions
      modifies this`pending, this`queued, this`writing, this`wire, manager.sessions.Values`isPending
      ensures Valid()
      ensures var c := Enqueue(SetPending(old(State()), k, false), k);
              State() == Protocol.WriteInLoop(c) && wire == old(wire) + Launched(c)
    {
      var data := manager.sessions[k];
      assert data in manager.sessions.Values;
      data.isPending := false;
      assert State() == SetPending(old(State()), k, false);
      SendInLoop(data);
    }

    /** The error branch of ReadInLoop, whose cancellation is ReconnectOrFail. */
    method ReadFailed()
      requires Valid() && reading > 0
      modifies this`reading, this`closedByPeer, this`connecting
      ensures Valid() && State() == Protocol.ReadFailed(old(State()))
    {
      reading := reading - 1;
      if terminated { return; }
      if !closedByPeer {
        closedByPeer := true;
        ReconnectOrFail();
      }
    }

    /** client_rpc_channel.cc:46-63. */
    method ReconnectOrFail()
      modifies this`connecting
      ensures connecting == old(connecting) + (if autoReconnect && !terminated then 1 else 0)
    {
      if !autoReconnect { return; }
      if terminated { return; }
      connecting := connecting + 1;
    }

    /** client_rpc_channel.cc:65-90; an error starts the next attempt, success swaps the socket. */
    method Connected(error: bool)
      requires Valid() && connecting > 0
      modifies this, manager.sessions.Values`isPending
      ensures Valid()
      ensures old(terminated) ==> State() == old(State()).(connecting := old(connecting) - 1) && wire == old(wire)
      ensures !old(terminated) && error ==> State() == old(State()) && wire == old(wire)
      ensures !old(terminated) && !error ==>
                var c := Rebuild(old(State()));
                State() == Resend(c, c.nextSeq) && wire == ResendLaunched(c, c.nextSeq)
    {
      connecting := connecting - 1;
      if terminated { return; }
      if error {
        connecting := connecting + 1;
        return;
      }
      hide Resend, ResendLaunched;
      RebuildSocket();
      assert State() == Rebuild(old(State()));
      SendPendingSessions();
    }

    /** rpc_channel.h:73-77 and StartToRead: partial_message_ is not reset. */
    method RebuildSocket()
      requires Valid()
      modifies this
      ensures Valid() && wire == [] && finishing == old(finishing)
      ensures State() == old(State()).(pending := [], closedByPeer := false, writing := [], queued := [], sent := [],
                                       reading := old(reading) + 1)
    {
      pending, closedByPeer, writing, wire, queued, sent := [], false, [], [], [], [];
      reading := reading + 1;
    }

    /** rpc_client_impl.cc:163-174: take the session out of the map; its callback runs now. Only a
        response that overtakes the completion of its own write leaves freed data in pending_. */
    method ReceivePackage(incoming: Message) returns (done: Option<Completion>)
      requires Valid() && finishing == null
      modifies this`finishing, manager
      ensures Valid() <==> forall i | 0 <= i < |pending| :: pending[i].call != SeqOf(incoming)
      ensures var c, n := old(State()), SeqOf(incoming);
              if n in c.sessions then
                && done == Some(Completion(n, incoming))
                && State() == c.(sessions := c.sessions - {n}, finishing := Some(c.sessions[n]))
              else done == None && State() == c
      ensures State() == TakeSession(old(State()), incoming)
      ensures (if done.Some? then [done.value] else []) == Completed(old(State()), incoming)
    {
      var data := manager.ReleaseSession(SeqOf(incoming));
      if data == null { return None; }
      finishing := data;
      return Some(Completion(SeqOf(incoming), incoming));
    }

    /** rpc_client_impl.cc:175-177, after the callback: the CHECK of ReleaseData, then delete. */
    method FinishReceive()
      requires Valid() && finishing != null && finishing.isPending
      modifies this`finishing
      ensures Valid() && State() == old(State()).(finishing := None)
    {
      assert finishing.isPending;
      finishing := null;
    }
  }
}
