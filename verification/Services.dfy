/** The server's service pool (rpc/detail/rpc_server_impl.cc:128-158): services are found by the
    hash of their name, which a client sends as a signed 32-bit field. */
module Services {
  import opened Words
  import opened Metadata
  import opened Frames
  import opened Streams
  import opened Protocol
  import City32
  import KnownHashes
  import Theorems

  type Payload = s: seq<Byte> | Sendable(s)

  /** A registered service: a name, the number of its methods, and what they answer to a serialised
      request. None is a request that does not parse. */
  class Service {
    const fullName: seq<Byte>
    const methods: nat
    const answer: (nat, seq<Byte>) -> Option<Payload>

    constructor (name: seq<Byte>, methods: nat, answer: (nat, seq<Byte>) -> Option<Payload>)
      ensures fullName == name && this.methods == methods && this.answer == answer
    {
      fullName, this.methods, this.answer := name, methods, answer;
    }
  }

  /** The server's end of a connection: what SendInLoop was given, in order. */
  class ServerRPCChannel {
    var queued: seq<Message>

    constructor ()
      ensures queued == []
    {
      queued := [];
    }

    method SendInLoop(data: Message)
      modifies this
      ensures queued == old(queued) + [data]
    {
      queued := queued + [data];
    }
  }

  function GetServiceID(name: seq<Byte>): U32 {
    City32.CityHash32(name)
  }

  type Pool = map<U32, Service>

  /** The pool after these AddService calls; None when one of them stops the process. */
  function AddAll(services: seq<Service>): Option<Pool> {
    if services == [] then Some(map[])
    else
      var before, last := AddAll(services[..|services| - 1]), services[|services| - 1];
      var id := GetServiceID(last.fullName);
      if before.None? || id in before.value then None else Some(before.value[id := last])
  }

  function LookUp(pool: Pool, id: U32): Option<Service> {
    if id in pool then Some(pool[id]) else None
  }

  /** The accessor service_id() and its conversion to the key type. */
  function WireId(m: Message): U32 {
    ToUint32(if m.meta.serviceId.Some? then m.meta.serviceId.value else 0)
  }

  /** SaveSession's request for a method of the service called `name`. */
  function RequestFor(name: seq<Byte>, methodId: I32, payload: seq<Byte>): Request {
    Request(ToInt32(GetServiceID(name)), methodId, payload)
  }

  datatype AddResult = Added | Twice | Collision(other: Service)

  class RPCServerImpl {
    var servicePool: Pool
    ghost var added: seq<Service>

    ghost predicate Valid()
      reads this
    {
      AddAll(added) == Some(servicePool)
    }

    constructor ()
      ensures Valid() && added == []
    {
      servicePool, added := map[], [];
    }

    /** AddService; a result other than Added stands for LOG_FATAL. */
    method AddService(service: Service) returns (result: AddResult)
      requires Valid()
      modifies this
      ensures result.Added? <==> forall i | 0 <= i < |old(added)| ::
                                   GetServiceID(old(added)[i].fullName) != GetServiceID(service.fullName)
      ensures result.Added? ==> Valid() && added == old(added) + [service]
      ensures result.Twice? ==> service in old(added)
      ensures result.Collision? ==> result.other != service && result.other in old(added)
                                    && GetServiceID(result.other.fullName) == GetServiceID(service.fullName)
      ensures !result.Added? ==> servicePool == old(servicePool) && added == old(added)
    {
      hide GetServiceID;
      PoolIsExact(added);
      var id := GetServiceID(service.fullName);
      if id in servicePool {
        return if servicePool[id] == service then Twice else Collision(servicePool[id]);
      }
      servicePool := servicePool[id := service];
      assert (added + [service])[..|added|] == added;
      added := added + [service];
      result := Added;
    }

    /** GetService; None is NULL, which CallMethod dereferences (rpc_server_impl.cc:159). */
    method GetService(id: U32) returns (service: Option<Service>)
      requires Valid()
      ensures service.Some? <==> exists i | 0 <= i < |added| :: GetServiceID(added[i].fullName) == id
      ensures service.Some? ==> service.value in added && GetServiceID(service.value.fullName) == id
      ensures service == LookUp(servicePool, id)
    {
      hide GetServiceID;
      PoolIsExact(added);
      service := LookUp(servicePool, id);
    }

    /** CallMethod of a service that runs `done` before it returns. Crashed stands for the
        dereference of a null service, NoMethod for a method index out of range, which the source
        does not test; Dropped for a request that does not parse. */
    method CallMethod(incoming: Message, channel: ServerRPCChannel) returns (outcome: Outcome)
      requires Valid()
      modifies channel
      ensures outcome == Crashed <==>
                forall i | 0 <= i < |added| :: GetServiceID(added[i].fullName) != WireId(incoming)
      ensures outcome != Crashed ==>
                exists i | 0 <= i < |added| :: Answers(added[i], incoming, outcome)
      ensures outcome == CallOutcome(servicePool, incoming)
      ensures channel.queued == old(channel.queued) +
                                if outcome.Answered? then [ResponseMessage(incoming, outcome.body)] else []
      ensures outcome.Answered? ==> var response := channel.queued[|old(channel.queued)|];
                                    RepliesTo(response, incoming) && response.payload == outcome.body
    {
      hide GetServiceID;
      var service := GetService(WireId(incoming));
      if service.None? { return Crashed; }
      PoolIsExact(added);
      var methodId := if incoming.meta.methodId.Some? then incoming.meta.methodId.value else 0;
      if methodId < 0 || methodId >= service.value.methods { return NoMethod; }
      var response := service.value.answer(methodId, incoming.payload);
      if response.None? { return Dropped; }
      SendResponse(channel, incoming.meta, response.value);
      return Answered(response.value);
    }

    /** The request's metadata, with the response's length, heads the response. */
    method SendResponse(channel: ServerRPCChannel, meta: RPCMetaData, body: Payload)
      modifies channel
      ensures channel.queued == old(channel.queued) + [Message(meta.(messageLength := Some(|body|)), body)]
    {
      channel.SendInLoop(Message(meta.(messageLength := Some(|body|)), body));
    }
  }

  datatype Outcome = Crashed | NoMethod | Dropped | Answered(body: Payload)

  /** What CallMethod makes of a message. */
  function CallOutcome(pool: Pool, m: Message): Outcome {
    match LookUp(pool, WireId(m))
    case None => Crashed
    case Some(service) =>
      var methodId := if m.meta.methodId.Some? then m.meta.methodId.value else 0;
      if 0 <= methodId < service.methods then
        match service.answer(methodId, m.payload) case None => Dropped case Some(body) => Answered(body)
      else NoMethod
  }

  /** The message is addressed to this service, and this is how the service responds. */
  predicate Answers(service: Service, m: Message, outcome: Outcome) {
    && GetServiceID(service.fullName) == WireId(m)
    && var methodId := if m.meta.methodId.Some? then m.meta.methodId.value else 0;
       if 0 <= methodId < service.methods then
         outcome == (match service.answer(methodId, m.payload) case None => Dropped case Some(body) => Answered(body))
       else outcome == NoMethod
  }

  /** The frame of a response to call n decodes to a message that names call n and carries the
      service's answer. */
  lemma {:induction false} ResponseNamesItsCall(n: U64, r: Request, body: Payload)
    requires Sendable(r.payload)
    ensures var m := ResponseMessage(RequestMessage(n, r), body);
            && IsFrame(Frame(m)) && MessageOf(Frame(m)) == m
            && SeqOf(MessageOf(Frame(m))) == n && MessageOf(Frame(m)).payload == body
  {
    hide Frame, IsFrame, MessageOf;
    FrameRoundTrip(ResponseMessage(RequestMessage(n, r), body));
  }

  ghost predicate DistinctIds(services: seq<Service>) {
    forall i, j | 0 <= i < j < |services| :: GetServiceID(services[i].fullName) != GetServiceID(services[j].fullName)
  }

  /** The AddService calls complete exactly when no two names hash alike, and then the pool holds
      the services under the hashes of their names and nothing else. */
  lemma {:induction false} PoolIsExact(services: seq<Service>)
    ensures AddAll(services).Some? <==> DistinctIds(services)
    ensures AddAll(services).Some? ==>
              && (forall i | 0 <= i < |services| :: LookUp(AddAll(services).value, GetServiceID(services[i].fullName)) == Some(services[i]))
              && (forall id | id in AddAll(services).value ::
                    exists i | 0 <= i < |services| :: GetServiceID(services[i].fullName) == id && AddAll(services).value[id] == services[i])
  {
    hide GetServiceID;
    if services != [] {
      var n := |services| - 1;
      PoolIsExact(services[..n]);
      var id := GetServiceID(services[n].fullName);
      var before := AddAll(services[..n]);
      if before.Some? {
        if id in before.value {
          var i :| 0 <= i < n && GetServiceID(services[..n][i].fullName) == id;
          assert !DistinctIds(services);
        } else {
          assert AddAll(services) == Some(before.value[id := services[n]]);
          PoolGrows(services, before.value);
        }
      } else {
        var i, j :| 0 <= i < j < n && GetServiceID(services[..n][i].fullName) == GetServiceID(services[..n][j].fullName);
        assert GetServiceID(services[i].fullName) == GetServiceID(services[j].fullName);
      }
    }
  }

  lemma {:induction false} PoolGrows(services: seq<Service>, before: Pool)
    requires services != []
    requires var n := |services| - 1;
             && DistinctIds(services[..n]) && GetServiceID(services[n].fullName) !in before
             && (forall i | 0 <= i < n :: LookUp(before, GetServiceID(services[..n][i].fullName)) == Some(services[..n][i]))
             && (forall id | id in before :: exists i | 0 <= i < n :: GetServiceID(services[..n][i].fullName) == id && before[id] == services[..n][i])
    ensures var n := |services| - 1;
            var pool := before[GetServiceID(services[n].fullName) := services[n]];
            && DistinctIds(services)
            && (forall i | 0 <= i < |services| :: LookUp(pool, GetServiceID(services[i].fullName)) == Some(services[i]))
            && (forall id | id in pool :: exists i | 0 <= i < |services| :: GetServiceID(services[i].fullName) == id && pool[id] == services[i])
  {
    hide GetServiceID;
    var n := |services| - 1;
    forall i | 0 <= i < n ensures LookUp(before, GetServiceID(services[i].fullName)) == Some(services[i]) {
      assert services[..n][i] == services[i];
    }
    forall id | id in before ensures exists i | 0 <= i < |services| :: GetServiceID(services[i].fullName) == id && before[id] == services[i] {
      var i :| 0 <= i < n && GetServiceID(services[..n][i].fullName) == id && before[id] == services[..n][i];
      assert services[i] == services[..n][i];
    }
  }

  /** Service ids tell apart names of one length from 5 to 24 that differ only in bytes read by one
      fetch, and names of 13 to 24 bytes with the same fetched words and different lengths. */
  lemma {:induction false} ServiceIdsDiffer(s: seq<Byte>, t: seq<Byte>, k: nat)
    ensures 5 <= |s| == |t| <= 24 && s != t && k < |City32.NameOffsets(|s|)|
            && (forall i | 0 <= i < |s| && s[i] != t[i] :: City32.ReadOnlyBy(City32.NameOffsets(|s|), k, i)) ==>
              GetServiceID(s) != GetServiceID(t)
    ensures 12 < |s| <= 24 && 12 < |t| <= 24 && |s| != |t|
            && City32.FetchAll(s, City32.Offsets13to24(|s|)) == City32.FetchAll(t, City32.Offsets13to24(|t|)) ==>
              GetServiceID(s) != GetServiceID(t)
  {
    hide City32.CityHash32, City32.FetchAll, City32.ReadOnlyBy;
    if 5 <= |s| == |t| <= 24 && s != t && k < |City32.NameOffsets(|s|)|
       && forall i | 0 <= i < |s| && s[i] != t[i] :: City32.ReadOnlyBy(City32.NameOffsets(|s|), k, i) {
      City32.OneFetchNamesDiffer(s, t, k);
    }
    if 12 < |s| <= 24 && 12 < |t| <= 24 && |s| != |t|
       && City32.FetchAll(s, City32.Offsets13to24(|s|)) == City32.FetchAll(t, City32.Offsets13to24(|t|)) {
      City32.MiddleLengthsDiffer(s, t);
    }
  }

  /** The repository's own services, BenchmarkInterface and PingPongTesting, have these ids and
      register side by side. */
  lemma {:induction false} OwnServices(benchmark: Service, pingPong: Service)
    requires benchmark.fullName == KnownHashes.Benchmark() && pingPong.fullName == KnownHashes.PingPong()
    ensures GetServiceID(benchmark.fullName) == 0x0ed076ea && GetServiceID(pingPong.fullName) == 0xe5669d8a
    ensures AddAll([benchmark, pingPong]) == Some(map[0x0ed076ea := benchmark, 0xe5669d8a := pingPong])
  {
    hide City32.CityHash32, KnownHashes.Benchmark, KnownHashes.PingPong;
    KnownHashes.BenchmarkHash();
    KnownHashes.PingPongHash();
    var both := [benchmark, pingPong];
    assert both[..1] == [benchmark] && [benchmark][..0] == [];
    assert AddAll([benchmark]) == Some(map[0x0ed076ea := benchmark]);
  }

  /** A hash of 2^31 or more travels as a negative int32: ten bytes instead of at most five. */
  lemma {:induction false} WireSize(h: U32)
    ensures h >= 0x8000_0000 ==> VarintSize(Raw(ServiceId(ToInt32(h)))) == 10
    ensures h < 0x8000_0000 ==> VarintSize(Raw(ServiceId(ToInt32(h)))) <= 5
  {
    assert Power128(5) == 128 * 128 * 128 * 128 * 128;
    if h < 0x8000_0000 {
      VarintSizeAtMost(h, 5);
    } else {
      var v := h + 0xffff_ffff_0000_0000;
      VarintFits(v);
      assert Power128(9) == 128 * 128 * 128 * 128 * Power128(5);
      VarintSizeAtLeast(v, 9);
    }
  }

  lemma {:induction false} VarintSizeAtLeast(v: nat, n: nat)
    requires v >= Power128(n)
    ensures VarintSize(v) > n
  {
    if n > 0 {
      assert Power128(n - 1) >= 1 by { Power128Positive(n - 1); }
      VarintSizeAtLeast(v / 128, n - 1);
    }
  }

  lemma {:induction false} Power128Positive(n: nat)
    ensures Power128(n) >= 1
  {
    if n > 0 { Power128Positive(n - 1); }
  }

  /** The id a client computes for a registered name, sent through the signed wire field, finds
      exactly that service; the id of any other name finds nothing unless the hashes collide. */
  lemma {:induction false} RegisteredServiceFound(services: seq<Service>, name: seq<Byte>, seq_: U64, methodId: I32, payload: seq<Byte>)
    requires AddAll(services).Some? && Sendable(payload)
    ensures var m := RequestMessage(seq_, RequestFor(name, methodId, payload));
            var p := ParseFromArray(Serialize(m.meta));
            && p.ok
            && var found := LookUp(AddAll(services).value, WireId(Message(p.meta, payload)));
            && (forall i | 0 <= i < |services| && services[i].fullName == name :: found == Some(services[i]))
            && (found.None? <==> forall i | 0 <= i < |services| :: GetServiceID(services[i].fullName) != GetServiceID(name))
  {
    hide GetServiceID, Serialize, ParseFromArray, AddAll;
    var m := RequestMessage(seq_, RequestFor(name, methodId, payload));
    MetadataRoundTrip(m.meta);
    PoolIsExact(services);
    assert WireId(m) == GetServiceID(name);
  }

  /** In every run, a request that the server serves for a call of method `methodId` of a registered
      service makes that service run that method on that payload, after any encoding and decoding. */
  lemma {:induction false} CallRunsItsMethod(s0: System, steps: seq<Step>, k: nat, i: nat, services: seq<Service>, j: nat, methodId: nat, payload: seq<Byte>)
    requires Init(s0) && ValidRun(s0, steps) && AddAll(services).Some? && j < |services|
    requires k < |Run(s0, steps).connections| && i < |Run(s0, steps).connections[k].serving|
    requires var n := SeqOf(Run(s0, steps).connections[k].serving[i]);
             n < |Theorems.Requests(steps)| && methodId < 0x8000_0000
             && Theorems.Requests(steps)[n] == RequestFor(services[j].fullName, methodId, payload)
    ensures var m, pool, service := Run(s0, steps).connections[k].serving[i], AddAll(services).value, services[j];
            && ValidMessage(m) && IsFrame(Frame(m))
            && CallOutcome(pool, MessageOf(Frame(m))) ==
               (if methodId >= service.methods then NoMethod
                else match service.answer(methodId, payload) case None => Dropped case Some(body) => Answered(body))
  {
    hide GetServiceID, AddAll, Run, ValidRun, Theorems.Requests, Frame, IsFrame, MessageOf, Init;
    Theorems.ServedTheorem(s0, steps, k, i);
    PoolIsExact(services);
    FrameRoundTrip(Run(s0, steps).connections[k].serving[i]);
  }

  /** SaveSession set the message's service id for this service. */
  predicate Addressed(m: Message, service: Service) {
    m.meta.serviceId == Some(ToInt32(GetServiceID(service.fullName)))
  }

  predicate AllAddressed(ms: seq<Message>, targets: seq<Service>) {
    |ms| == |targets| && forall k | 0 <= k < |ms| :: Addressed(ms[k], targets[k])
  }

  /** What CallMethod finds for each frame of a read. */
  function Dispatched(pool: Pool, fs: seq<seq<Byte>>): (found: seq<Option<Service>>)
    requires AllFrames(fs)
    ensures |found| == |fs| && forall k | 0 <= k < |fs| :: found[k] == LookUp(pool, WireId(Messages(fs)[k]))
  {
    var ms := Messages(fs);
    seq(|ms|, k requires 0 <= k < |ms| => LookUp(pool, WireId(ms[k])))
  }

  /** From names to services over the wire: however the bytes of the requests are divided into
      reads, a server that survives the reads dispatches them, in order, to exactly the services
      the clients named. */
  lemma {:induction false} RequestsReachServices(version: Version, services: seq<Service>, ms: seq<Message>, targets: seq<Service>, chunks: seq<seq<Byte>>)
    requires AddAll(services).Some? && AllValid(ms) && AllAddressed(ms, targets)
    requires forall t | t in targets :: t in services
    requires Flatten(chunks) == Flatten(FrameList(ms))
    requires ReadAll(version, chunks).alive
    ensures var fs := ReadAll(version, chunks).frames;
            && AllFrames(fs) && |fs| == |targets|
            && forall k | 0 <= k < |targets| :: Dispatched(AddAll(services).value, fs)[k] == Some(targets[k])
  {
    hide GetServiceID, ReadAll, CleanCuts, Frame, AddAll, MessageOf, IsFrame, Flatten;
    MessagesArrive(version, ms, chunks);
    PoolIsExact(services);
    forall k | 0 <= k < |targets| ensures LookUp(AddAll(services).value, WireId(ms[k])) == Some(targets[k]) {
      assert targets[k] in services;
      assert Addressed(ms[k], targets[k]);
    }
  }
}
