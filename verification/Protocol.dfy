/** The call protocol: client, one FIFO network connection after another, and server, as atomic
    steps of one loop thread on each side (rpc/detail/client_rpc_channel.cc, client_session.cc,
    rpc_channel.cc, rpc_client_impl.cc, rpc_server_impl.cc). Frames are messages here; module
    Refinement links them to bytes. */
module Protocol {
  import opened Words
  import opened Metadata
  import opened Frames

  // ----- Messages -----

  datatype Request = Request(serviceId: I32, methodId: I32, payload: seq<Byte>)

  predicate Sendable(payload: seq<Byte>) {
    |payload| < 0x8000_0000
  }

  /** SaveSession: the metadata of call number n. */
  function RequestMessage(n: U64, r: Request): Message
    requires Sendable(r.payload)
  {
    Message(RPCMetaData(Some(n), Some(r.serviceId), Some(r.methodId), Some(|r.payload|)), r.payload)
  }

  /** SendResponse: the request's metadata with the length of the response. */
  function ResponseMessage(request: Message, body: seq<Byte>): Message
    requires Sendable(body)
  {
    Message(request.meta.(messageLength := Some(|body|)), body)
  }

  /** What a message of call k must say: its number, the service and method of the request, and the
      request itself with its length. */
  predicate Carries(m: Message, k: nat, r: Request) {
    && m.meta.seq_.Some? && m.meta.seq_.value == k
    && m.meta.serviceId == Some(r.serviceId) && m.meta.methodId == Some(r.methodId)
    && m.meta.messageLength.Some? && m.meta.messageLength.value == |r.payload|
    && m.payload == r.payload
  }

  /** What a response must say: the request's number, service and method, and its own length. */
  predicate RepliesTo(m: Message, request: Message) {
    && m.meta.seq_ == request.meta.seq_ && m.meta.serviceId == request.meta.serviceId && m.meta.methodId == request.meta.methodId
    && m.meta.messageLength.Some? && m.meta.messageLength.value == |m.payload|
  }

  /** The accessor seq(): an unset field reads as 0. */
  function SeqOf(m: Message): nat {
    if m.meta.seq_.Some? then m.meta.seq_.value else 0
  }

  // ----- The client -----

  /** A ClientSession and the RPCData it owns. */
  datatype Session = Session(request: Message, isPending: bool)

  /** SessionManager, ClientRPCChannel and its RPCChannel. `pending` names data by sequence number.
      `writing`, `reading` and `connecting` are the asynchronous operations outstanding (`writing` on
      the current socket only). `queued` and `sent` are histories of the current socket: what
      SendInLoop was given and what was fully written. `finishing` is the session that
      ReceivePackage has taken out of the map and not yet freed. */
  datatype Client = Client(
    nextSeq: nat,
    sessions: map<nat, Session>,
    pending: seq<nat>,
    closedByPeer: bool,
    terminated: bool,
    autoReconnect: bool,
    reading: nat,
    connecting: nat,
    writing: seq<nat>,
    queued: seq<nat>,
    sent: seq<nat>,
    finishing: Option<Session>)

  /** WriteInLoop would start a write. */
  predicate CanWrite(c: Client) {
    c.pending != [] && c.pending[0] in c.sessions && !c.sessions[c.pending[0]].isPending
  }

  function SetPending(c: Client, k: nat, flag: bool): Client
    requires k in c.sessions
  {
    c.(sessions := c.sessions[k := c.sessions[k].(isPending := flag)])
  }

  function WriteInLoop(c: Client): Client {
    if CanWrite(c) then SetPending(c, c.pending[0], true).(writing := c.writing + [c.pending[0]]) else c
  }

  /** What WriteInLoop hands to async_write. */
  function Launched(c: Client): seq<Message> {
    if CanWrite(c) then [c.sessions[c.pending[0]].request] else []
  }

  /** RPCChannel::SendInLoop up to its call of WriteInLoop. */
  function Enqueue(c: Client, k: nat): Client {
    c.(pending := c.pending + [k], queued := c.queued + [k])
  }

  /** SaveSession followed by the push of SendInLoop. */
  function SaveAndEnqueue(c: Client, request: Message): Client {
    Enqueue(c.(nextSeq := c.nextSeq + 1, sessions := c.sessions[c.nextSeq := Session(request, false)]), c.nextSeq)
  }

  /** Written, without error, up to its call of WriteInLoop. */
  function PopWritten(c: Client): Client
    requires c.writing != [] && c.pending != []
  {
    c.(writing := c.writing[1..], pending := c.pending[1..], sent := c.sent + [c.pending[0]])
  }

  /** RebuildSocket and StartToRead. */
  function Rebuild(c: Client): Client {
    c.(pending := [], closedByPeer := false, writing := [], queued := [], sent := [],
       reading := c.reading + 1, connecting := c.connecting - if c.connecting > 0 then 1 else 0)
  }

  /** SendPendingSessions over the sessions numbered below n, in the map's key order. */
  function Resend(c: Client, n: nat): Client {
    if n == 0 then c
    else
      var c' := Resend(c, n - 1);
      if n - 1 in c'.sessions then WriteInLoop(Enqueue(SetPending(c', n - 1, false), n - 1)) else c'
  }

  function ResendLaunched(c: Client, n: nat): seq<Message> {
    if n == 0 then []
    else
      var c' := Resend(c, n - 1);
      ResendLaunched(c, n - 1) +
      (if n - 1 in c'.sessions then Launched(Enqueue(SetPending(c', n - 1, false), n - 1)) else [])
  }

  /** The read loop's error branch with ReconnectOrFail. */
  function ReadFailed(c: Client): Client
    requires c.reading > 0
  {
    var c' := c.(reading := c.reading - 1);
    if c.terminated || c.closedByPeer then c'
    else if !c.autoReconnect then c'.(closedByPeer := true)
    else c'.(closedByPeer := true, connecting := c.connecting + 1)
  }

  // ----- Client, connections and server -----

  /** One TCP connection and the server channel at its end: requests in flight, requests being
      served, and responses in SendInLoop order. `launched` and `arrived` are histories: what the
      client handed to async_write on this socket, and what the server's decoder delivered. */
  datatype Connection = Connection(
    up: seq<Message>, serving: seq<Message>, down: seq<Message>, launched: seq<Message>, arrived: seq<Message>)

  /** One execution of a service: the request it was given and the response it computed. */
  datatype Execution = Execution(request: Message, body: seq<Byte>)

  datatype Completion = Completion(call: nat, response: Message)

  /** The last connection is the current one. `calls`, `executions` and `done` are histories: every
      call made, every response computed, every callback run. */
  datatype System = System(
    client: Client,
    connections: seq<Connection>,
    calls: map<nat, Message>,
    executions: set<Execution>,
    done: seq<Completion>)

  predicate Connected(s: System) {
    s.connections != []
  }

  function Current(s: System): Connection
    requires Connected(s)
  {
    s.connections[|s.connections| - 1]
  }

  function SetCurrent(s: System, x: Connection): System
    requires Connected(s)
  {
    s.(connections := s.connections[|s.connections| - 1 := x])
  }

  /** Runs WriteInLoop from c and puts what it launches on the current connection. */
  function Pump(s: System, c: Client): System
    requires Connected(s)
  {
    var x := Current(s);
    SetCurrent(s, x.(up := x.up + Launched(c), launched := x.launched + Launched(c))).(client := WriteInLoop(c))
  }

  datatype Step =
    | Call(request: Request)                     // CallMethod -> SendInLoop, from any callback
    | Written                                    // async_write completed the whole buffer
    | WriteFailed                                // async_write failed
    | ServerReceive(connection: nat)             // the server's ReadInLoop -> CallMethod
    | ServerRespond(connection: nat, task: nat, body: seq<Byte>) // a service runs done -> SendResponse
    | Receive                                    // ReceivePackage up to the user's callback
    | Finish                                     // the rest of ReceivePackage: ReleaseData, delete
    | ReadError                                  // ReadInLoop with an error
    | ReadAfterTerminate                         // ReadInLoop on a terminated channel
    | ConnectError                               // Connected with an error
    | ConnectDone                                // Connected
    | Terminate                                  // TerminateInLoop

  /** When a step can happen. The environment assumptions are here:
      - sequence numbers do not wrap, and payloads fit protobuf's int sizes;
      - a failed write did not transfer the whole buffer, so the server has none of that request;
      - the completion of a write runs before the read that delivers its response;
      - while a callback runs inside ReceivePackage, the loop only makes the calls it asks for. */
  predicate Enabled(s: System, step: Step) {
    && Connected(s)
    && var c := s.client;
    && (step.Call? || step.Finish? || step.ServerReceive? || step.ServerRespond? || c.finishing.None?)
    && match step
       case Call(r) => c.nextSeq < 0x1_0000_0000_0000_0000 && Sendable(r.payload)
       case Written => c.writing != []
       case WriteFailed => c.writing != [] && c.pending != [] && ServerLacks(Current(s), c.pending[0])
       case ServerReceive(k) => k < |s.connections| && s.connections[k].up != []
       case ServerRespond(k, i, body) =>
         k < |s.connections| && i < |s.connections[k].serving| && Sendable(body)
       case Receive =>
         && c.reading > 0 && Current(s).down != []
         && (c.writing != [] && c.pending != [] ==> SeqOf(Current(s).down[0]) != c.pending[0])
       case Finish => c.finishing.Some?
       case ReadError => c.reading > 0
       case ReadAfterTerminate => c.reading > 0 && c.terminated
       case ConnectError => c.connecting > 0 && !c.terminated
       case ConnectDone => c.connecting > 0
       case Terminate => true
  }

  /** The last frame on the way up is request n, unfinished, and nothing of it is elsewhere. */
  predicate ServerLacks(x: Connection, n: nat) {
    && x.up != [] && SeqOf(x.up[|x.up| - 1]) == n
    && (forall i | 0 <= i < |x.up| - 1 :: SeqOf(x.up[i]) != n)
    && (forall i | 0 <= i < |x.serving| :: SeqOf(x.serving[i]) != n)
    && (forall i | 0 <= i < |x.down| :: SeqOf(x.down[i]) != n)
  }

  /** The server's decoder hands over the next request, and its service starts. */
  function Deliver(x: Connection): Connection
    requires x.up != []
  {
    x.(up := x.up[1..], serving := x.serving + [x.up[0]], arrived := x.arrived + [x.up[0]])
  }

  function Apply(s: System, step: Step): System
    requires Enabled(s, step)
  {
    var c := s.client;
    match step
    case Call(r) =>
      var m := RequestMessage(c.nextSeq, r);
      Pump(s.(calls := s.calls[c.nextSeq := m]), SaveAndEnqueue(c, m))
    case Written =>
      if c.pending == [] then s.(client := c.(writing := c.writing[1..])) else Pump(s, PopWritten(c))
    case WriteFailed =>
      SetCurrent(s, Current(s).(up := Current(s).up[..|Current(s).up| - 1])).(client := c.(writing := c.writing[1..]))
    case ServerReceive(k) =>
      var x := s.connections[k];
      s.(connections := s.connections[k := Deliver(x)])
    case ServerRespond(k, i, body) =>
      var x := s.connections[k];
      var m := x.serving[i];
      s.(connections := s.connections[k := x.(serving := x.serving[..i] + x.serving[i + 1..],
                                             down := x.down + [ResponseMessage(m, body)])],
         executions := s.executions + {Execution(m, body)})
    case Receive => ReceivePackage(s)
    case Finish => s.(client := c.(finishing := None))
    case ReadError => s.(client := ReadFailed(c))
    case ReadAfterTerminate => s.(client := c.(reading := c.reading - 1))
    case ConnectError => s
    case ConnectDone =>
      if c.terminated then s.(client := c.(connecting := c.connecting - 1))
      else
        var c' := Rebuild(c);
        var launched := ResendLaunched(c', c'.nextSeq);
        s.(client := Resend(c', c'.nextSeq), connections := s.connections + [Connection(launched, [], [], launched, [])])
    case Terminate => s.(client := c.(terminated := true))
  }

  /** ReceivePackage of m up to and including Done, in the client: an unknown number is dropped. */
  function TakeSession(c: Client, m: Message): Client {
    var n := SeqOf(m);
    if n in c.sessions then c.(sessions := c.sessions - {n}, finishing := Some(c.sessions[n])) else c
  }

  /** The callbacks that it runs. */
  function Completed(c: Client, m: Message): seq<Completion> {
    if SeqOf(m) in c.sessions then [Completion(SeqOf(m), m)] else []
  }

  function ReceivePackage(s: System): System
    requires Connected(s) && Current(s).down != []
  {
    var c, m := s.client, Current(s).down[0];
    SetCurrent(s, Current(s).(down := Current(s).down[1..])).(client := TakeSession(c, m), done := s.done + Completed(c, m))
  }

  /** Connected for the first time, reading, nothing called. */
  predicate Init(s: System) {
    && s.client == Client(0, map[], [], false, false, s.client.autoReconnect, 1, 0, [], [], [], None)
    && s.connections == [Connection([], [], [], [], [])]
    && s.calls == map[] && s.executions == {} && s.done == []
  }

  predicate ValidRun(s: System, steps: seq<Step>)
    decreases |steps|
  {
    steps == [] || (Enabled(s, steps[0]) && ValidRun(Apply(s, steps[0]), steps[1..]))
  }

  function Run(s: System, steps: seq<Step>): System
    requires ValidRun(s, steps)
    decreases |steps|
  {
    if steps == [] then s else Run(Apply(s, steps[0]), steps[1..])
  }
}
