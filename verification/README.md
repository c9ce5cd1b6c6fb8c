# Verified model of the gboost-rpc library

This project models the hard core of an asynchronous RPC library built on Boost.Asio and Protocol
Buffers, and proves what that core keeps over all inputs and all runs. `dafny verify dfyconfig.toml`
checks all of it.

The modules follow the program:

| file | what it holds |
|---|---|
| `Words`, `Bits`, `Memory` | bytes, fixed-width integers, exclusive or, shifts and rotations over integers; an input that records which of its bytes are read |
| `Metadata` | `RPCMetaData`: the protobuf record in front of every message |
| `Frames`, `Streams`, `Recovery` | the framed message stream: specification, whole-stream theorems, and what stale or unparsable bytes do to it |
| `Decoder`, `Encoder` | `RPCData` and `RPCChannel`'s read loop as classes, serialisation into an array; proved against `Frames` |
| `Protocol`, `Safety`, `Wire`, `Theorems` | client, network and server as a state machine, its invariants, and the safety theorems |
| `ClientSide` | `SessionManager` and `ClientRPCChannel` as classes, proved against `Protocol` |
| `Refinement`, `EndToEnd` | the link: the byte stream behaves as the FIFO of messages that `Protocol` assumes, and the whole library over bytes is a refinement of `Protocol` |
| `Services` | the server's service pool |
| `Ownership`, `Dispatcher` | reference counts and the dispatcher's pool: runs, and the objects, proved against them |
| `City32`, `City64`, `City128` | CityHash |
| `KnownHashes`, `KnownLongHashes` | values of the hash functions for inputs of every length class, worked out step by step |
| `Events` | `AtomicEvent` and `SyncEvent` under every interleaving |

## Environment assumptions

All but the last two are guards of `Protocol.Enabled`, `EndToEnd.CanStep`, `Ownership.Enabled` or the
two guards of `Events`:

- a successful `async_write` transferred the whole buffer; a failed one left some of its own bytes
  untransferred (in `Protocol` the server then has nothing of that request, and
  `EndToEnd.StepSimulated` derives this from the bytes);
- the completion of a write runs before the read that delivers its response
  (`Theorems.OvertakingTheorem` proves that this is exactly what is needed, and
  `Theorems.OvertakingHappens` that a server can be fast enough to break it);
- the sequence number does not wrap, payloads are shorter than 2^31 bytes, event counters stay below
  2^31 - 1;
- the loop thread of a client makes only the calls that a callback asks for while it is inside
  `ReceivePackage`; the allocator returns memory that is not in use;
- across a reconnect, the connection was lost between response frames. In `EndToEnd` this is a guard
  of `Reconnected`; in `Protocol` it is implied by messages that arrive whole or not at all.
  `Recovery.StaleTailTheorem` proves that it is exactly what is needed;
- a write outstanding on a replaced socket never reports after `RebuildSocket`, and the server
  answers on the channel the request came from: this is how the steps are written;
- a service runs `done` once per request, and before `CallMethod` returns where channel lifetime
  matters (`Ownership`): this, too, is how the steps are written.

## Where the code departs from its evident intent

The model follows the code.

- Metadata cut by a read boundary: `rpc/detail/rpc_data.cc:95-96` requires the buffer just
  filled to be shorter than the metadata, so the process stops whenever metadata arrives in two
  reads. `Streams.DivisionTheorem` gives the exact condition, `Streams.EveryMetadataCutStops` the
  whole failing family. The version `Amended` drops these lines, and clears the buffer before an
  empty payload too (lines 112-115 do not); it decodes every division, as
  `unit.test/rpc_message_test.cc:79-124` expects.
- `RebuildSocket` keeps `partial_message_` (`rpc/detail/rpc_channel.h:73-77`): whatever frames the new
  connection carries, the receiver gets exactly them, if and only if nothing was held
  (`Recovery.StaleTailTheorem`). It is a condition on all streams: some held bytes do no harm to some
  stream (`Recovery.StaleMayPass`).
- After unparsable metadata the log announces that the channel will be closed
  (`rpc/detail/rpc_data.cc:105-106`); the read loop drops the rest of that read, whole frames included,
  and goes on reading (`Recovery.UnparsableDrops`, `Recovery.DropTheorem`). Later frames come out as
  sent if and only if that read ended at the end of a frame (`Recovery.ResyncTheorem`).
- An unregistered service is dereferenced before it is tested
  (`rpc/detail/rpc_server_impl.cc:158-161`); `Services.RegisteredServiceFound` says exactly when the
  lookup yields nothing.
- A channel terminated while in the pool is never deleted (`rpc/detail/rpc_channel.cc:50-55`), and
  every other live channel still can be (`Ownership.LeakTheorem`); such channels occur
  (`Ownership.LeakHappens`).
- CityHash64's block step is described as keeping 56 bytes of state; `City64.BlockStepCollides` and
  `City64.BlockStepForgets` prove that each step loses 8 of them.

## Model

| member | source | states |
|---|---|---|
| Words.ToInt32 | rpc/detail/protocol/rpc.pb.cc:317-320 | storing a 32-bit hash in a signed field loses nothing: converting back gives the hash |
| Words.BigEndian | rpc/detail/rpc_data.cc:164 | the length prefix in network order reads back as the same number |
| Metadata.VarintRoundTrip | rpc/detail/protocol/rpc.pb.cc:188-277 | a written varint is read back, with exactly its own bytes, whatever follows |
| Metadata.VarintFits | rpc/detail/protocol/rpc.pb.cc:188-277 | every 64-bit value fits the ten bytes a reader accepts |
| Metadata.VarintGroups | rpc/detail/protocol/rpc.pb.cc:309-335 | byte k of a varint is the k-th group of seven bits of the value, with the top bit set exactly on all bytes but the last, and no group is superfluous |
| Metadata.VarintTooLong | rpc/detail/protocol/rpc.pb.cc:188-277 | a varint without a last group among the bytes a reader may use is refused |
| Metadata.MergePartialFromCodedStream | rpc/detail/protocol/rpc.pb.cc:188-277 | the parser with its ExpectTag and ExpectAtEnd shortcuts agrees with the plain tag loop on every input, malformed ones included |
| Metadata.MergeEncodedFields | rpc/detail/protocol/rpc.pb.cc:188-277 | any list of encoded fields, in any order and with repeats, parses to the fields set in turn |
| Metadata.LastFieldWins | rpc/detail/protocol/rpc.pb.cc:188-277 | of a repeated field the last value counts |
| Metadata.WideValuesTruncated | rpc/detail/protocol/rpc.pb.cc:188-277 | a value too wide for its field is reduced to the field's width, with its sign |
| Metadata.UnknownFieldSkipped | rpc/detail/protocol/rpc.pb.cc:188-277 | an undeclared field of any wire type but groups is skipped with exactly its bytes, whatever follows |
| Metadata.EndTagFails | rpc/detail/protocol/rpc.pb.cc:188-277 | a zero or end-group tag makes the parse fail |
| Metadata.AllFieldsRequired | rpc/detail/protocol/rpc.pb.cc:427-431 | any list of encoded fields parses if and only if all four are among them |
| Metadata.FieldOrderIrrelevant | rpc/detail/protocol/rpc.pb.cc:188-277 | the four fields parse to the same record in any order |
| Metadata.MetadataRoundTrip | rpc/detail/protocol/rpc.pb.cc:309-335 | every fully set record survives serialise-then-parse |
| Metadata.PrefixNeverParses | rpc/detail/protocol/rpc.pb.cc:188-277 | no proper part of a serialised record parses |
| Metadata.SerializedLength | rpc/detail/protocol/rpc.pb.cc:340-382 | ByteSize is the length of the serialised form |
| Metadata.ByteSizeZero | rpc/detail/protocol/rpc.pb.cc:340-382 | ByteSize is zero exactly for the empty record, at least 8 for an initialised one, at most 39 |
| Metadata.ParsedIsNotEmpty | rpc/detail/rpc_data.cc:80 | no successful parse has ByteSize 0, the decoder's "not parsed yet" test |
| Encoder.WriteVarintToArray | rpc/detail/protocol/rpc.pb.cc:309-335 | the varint's bytes in place, everything before and after untouched |
| Encoder.SerializeToArray | rpc/detail/protocol/rpc.pb.cc:309-335 | the advancing-pointer serialiser leaves exactly the serialised record and touches nothing beyond it |
| Encoder.ToBuffer | rpc/detail/rpc_data.cc:150-197 | the buffer holds prefix, metadata and payload: exactly one frame |
| Frames.Take | rpc/detail/rpc_data.cc:50-138 | a call that neither stops nor returns -1 takes between 1 and all bytes, and all of them if the message is still partial |
| Frames.Read | rpc/detail/rpc_channel.cc:71-97 | the read loop ends, and what it keeps is an unfinished message |
| Frames.ReadConserves | rpc/detail/rpc_channel.cc:71-97 | for arbitrary bytes, every byte read is in a delivered frame, dropped after a -1, or still held |
| Streams.FrameRoundTrip | rpc/detail/rpc_data.cc:150-197 | what ToBuffer writes is one frame and carries the message back |
| Streams.DivisionTheorem | rpc/detail/rpc_channel.cc:71-97 | for every list of frames and every division into reads: the process survives if and only if no boundary cuts metadata (always, amended), and then exactly the whole frames arrive in order and partial_message_ is exactly the unfinished tail |
| Streams.MessagesArrive | rpc/detail/rpc_data.cc:50-138 | for every list of messages and every division of all their bytes, a surviving receiver gets exactly those messages, in order, and holds nothing |
| Streams.CutSeenByDecoder | rpc/detail/rpc_data.cc:93-97 | the decoder meets metadata completed by a later read exactly when a boundary lies strictly inside a metadata section |
| Streams.EveryMetadataCutStops | unit.test/rpc_message_test.cc:79-124 | every message and every position inside its metadata: two reads cut there stop the shipped decoder, and the amended one delivers the frame |
| Recovery.StaleTailTheorem | rpc/detail/rpc_channel.h:73-77 | for every list of frames and every clean division into reads on the new socket, the receiver gets exactly those frames: true if and only if partial_message_ held nothing |
| Recovery.StaleMayPass | rpc/detail/rpc_channel.h:73-77 | held bytes and a frame that comes out as sent after them all the same |
| Recovery.UnparsableDrops | rpc/detail/rpc_channel.cc:79-84 | whole frames before metadata that does not parse arrive, and everything from its start to the end of the read is dropped |
| Recovery.DropTheorem | rpc/detail/rpc_channel.cc:71-97 | for arbitrary bytes, a read drops something if and only if what follows its frames starts with metadata that does not parse; it then drops all the rest and otherwise keeps it |
| Recovery.StopTheorem | rpc/detail/rpc_data.cc:71-72 | for arbitrary bytes, a read stops the amended decoder if and only if what follows its frames starts with a zero length |
| Recovery.ResyncTheorem | rpc/detail/rpc_channel.cc:79-104 | after such a read, every later list of frames in every clean division comes out as sent if and only if the dropping read ended at the end of a frame |
| Decoder.RPCData.AppendBinaries | rpc/detail/rpc_data.cc:50-138 | the three-phase decoder with its reused buffer does exactly what the specification says for the bytes received so far |
| Decoder.RPCData.AppendSize | rpc/detail/rpc_data.cc:53-78 | the length-prefix phase |
| Decoder.RPCData.AppendMeta | rpc/detail/rpc_data.cc:80-122 | the metadata phase, with the check that stops it |
| Decoder.RPCData.AppendPayload | rpc/detail/rpc_data.cc:124-138 | the payload phase |
| Decoder.RPCData.Partial | rpc/detail/rpc_data.cc:199-206 | true exactly while the frame is incomplete; its check never fails |
| Decoder.RPCChannel.ReadSome | rpc/detail/rpc_channel.cc:73-96 | one turn of the loop; the checks at lines 86 and 91 hold |
| Decoder.RPCChannel.ReadInLoop | rpc/detail/rpc_channel.cc:71-97 | the loop over one read delivers exactly the specified messages and keeps the specified tail |
| Safety.StepKeeps | rpc/detail/rpc_channel.cc:106-155 | every step of client, network and server keeps the joint invariant of sessions, queue, marks, traffic and histories |
| Safety.ResendForm | rpc/detail/client_rpc_channel.cc:34-44 | the resend loop in closed form: all sessions in key order, one write started |
| Safety.ReceivedWasSent | rpc/detail/rpc_client_impl.cc:163-181 | a response that can be received belongs to a request fully written on the current socket |
| Theorems.CallsAreRequests | rpc/detail/client_session.cc:46-63 | calls get consecutive numbers, and the message of call k carries k, the service, the method, the payload and its length of the run's k-th request |
| Theorems.CallbackTheorem | rpc/detail/rpc_client_impl.cc:163-181 | in every run each call's callback runs at most once, and only with a response that names the call and whose body a service computed, in a step of the run, from the message that carries that call's request |
| Theorems.ReceiveTheorem | rpc/detail/rpc_client_impl.cc:170-177 | handling a response to an outstanding call runs its callback with that response and removes its session; any other response belongs to an answered call and changes nothing |
| Theorems.CompletionTheorem | rpc/detail/rpc_client_impl.cc:163-181 | in every run the calls whose callback has run are exactly those for which a Receive step handled a response, each of them once |
| Theorems.CallCanComplete | rpc/detail/rpc_client_impl.cc:163-181 | for every request and every answer, a run in which the call completes with that answer |
| Theorems.ServedTheorem | rpc/detail/rpc_server_impl.cc:153-193 | every request served on any connection carries the request of the call it names |
| Theorems.ExecutionsAreComputed | rpc/detail/rpc_server_impl.cc:195-206 | the history of executions is what the run's response steps computed |
| Theorems.ServingTheorem | rpc/detail/rpc_server_impl.cc:153-206 | on every connection the requests being served are those received less those answered, counted from the steps |
| Theorems.ReleaseTheorem | rpc/detail/client_session.h:26-29 | in every reachable state the IsPending check in ReleaseData holds when reached, also after calls made by the callback, and pending_ holds no freed data |
| Theorems.OvertakingTheorem | rpc/detail/rpc_client_impl.cc:170-177 | handling a response leaves only live data in pending_ if and only if it does not overtake its own write's completion |
| Theorems.OvertakingHappens | rpc/detail/rpc_client_impl.cc:170-177 | a run that reaches such a response, with freed data left in pending_ if it is handled then |
| Theorems.OutstandingTheorem | rpc/detail/client_rpc_channel.cc:34-90 | outstanding sessions are the disjoint union of those queued and those written on the current socket and unanswered |
| Theorems.PumpTheorem | rpc/detail/rpc_channel.cc:106-155 | at most one write per socket, exactly the head of pending_ marked, and the checks in Written hold |
| Theorems.ReconnectTheorem | rpc/detail/client_rpc_channel.cc:65-90 | right after a reconnect pending_ is every outstanding session in increasing number, only the head marked and being written |
| Theorems.SocketBytesTheorem | rpc/detail/rpc_channel.cc:106-155 | what was handed to async_write on the current socket is what was sent and then the head of pending_, in SendInLoop order and none twice; the bytes written, a partly written frame included, are a prefix of the frames in that order |
| Theorems.SocketOrderTheorem | rpc/detail/rpc_channel.cc:106-155 | on every socket, past ones included: what arrived at the server and what is on its way is what was handed over, in order, but for at most the last, whose write failed; and the server serves and answers only what arrived, each of it once |
| Wire.WireStepKeeps | rpc/detail/rpc_channel.cc:106-155 | every step keeps, for every socket, the order of what was handed over, carried and delivered |
| Theorems.ModeTheorem | rpc/detail/client_rpc_channel.cc:46-90 | one read outstanding, or one connect attempt, or stopped for good; it stops only when terminated or without auto-reconnect |
| Theorems.ReadErrorTheorem | rpc/detail/client_rpc_channel.cc:46-63 | a failed read starts one connect attempt exactly when reconnecting is on and the channel is not terminated, and stops the channel otherwise |
| Theorems.TerminateTheorem | rpc/detail/rpc_channel.cc:168-173 | after TerminateInLoop, in every continuation, no connect attempt is started and no socket exchanged |
| ClientSide.SessionManager.SaveSession | rpc/detail/client_session.cc:46-63 | the number is new, the session is stored under it with a message that carries number, service, method and payload, nothing else changes |
| ClientSide.SessionManager.ReleaseSession | rpc/detail/client_session.cc:65-75 | the session is returned and removed; an unknown number returns null and changes nothing |
| ClientSide.ClientRPCChannel.WriteInLoop | rpc/detail/rpc_channel.cc:106-129 | performs the protocol's write step on the object state and the wire |
| ClientSide.ClientRPCChannel.SendInLoop | rpc/detail/rpc_channel.h:38-42 | performs enqueue-and-write |
| ClientSide.ClientRPCChannel.Call | rpc/detail/client_rpc_channel.cc:23-32 | performs the protocol's call step |
| ClientSide.ClientRPCChannel.Written | rpc/detail/rpc_channel.cc:131-155 | performs the write completion; its checks hold in every reachable state |
| ClientSide.ClientRPCChannel.SendPendingSessions | rpc/detail/client_rpc_channel.cc:34-44 | the loop over the session map performs the protocol's resend |
| ClientSide.ClientRPCChannel.ReadFailed | rpc/detail/rpc_channel.cc:57-69 | performs the read-error step |
| ClientSide.ClientRPCChannel.Connected | rpc/detail/client_rpc_channel.cc:65-90 | terminated, failed and successful connects, each as the protocol's step |
| ClientSide.ClientRPCChannel.ReceivePackage | rpc/detail/rpc_client_impl.cc:163-174 | takes the session out of the map and runs its callback; an unknown number is dropped; pending_ stays live if and only if the response does not belong to queued data; state and callback equal the protocol's |
| ClientSide.ClientRPCChannel.FinishReceive | rpc/detail/rpc_client_impl.cc:175-177 | the check of ReleaseData, then the session is gone |
| Refinement.ReadRefinesFifo | rpc/detail/rpc_channel.cc:71-97 | reading the next bytes hands over the first messages of the FIFO and leaves the rest coupled |
| Refinement.TrafficIsValid | rpc/detail/rpc_server_impl.cc:195-206 | every request and response of a reachable run is a valid frame, on every connection |
| Refinement.ClientReadTheorem | rpc/detail/rpc_channel.cc:71-97 | in any reachable state, what a byte-level read hands to ReceivePackage is what the protocol's FIFO delivers next |
| Refinement.SendRefinesFifo | rpc/detail/rpc_channel.cc:121-128 | sending a frame appends to the FIFO |
| Refinement.LinkTheorem | rpc/detail/rpc_channel.cc:71-97 | over every interleaving of sends and reads of any size: delivered is a prefix of sent, the bytes under way are exactly the rest, and all is delivered once all is read |
| EndToEnd.StepSimulated | rpc/detail/rpc_channel.cc:48-155 | every step of the library over bytes, with decoders one loop turn at a time and reads and broken writes of any size, is the protocol step it performs or moves bytes only |
| EndToEnd.RunSimulated | rpc/detail/client_rpc_channel.cc:34-90 | every run over bytes, reconnects included, is a protocol run with the same calls |
| EndToEnd.EndToEndTheorem | rpc/detail/rpc_client_impl.cc:163-181 | over bytes, for every interleaving: each call's callback runs at most once, and only with a response that names the call and whose body a service computed, in a step of the run, from the message that carries that call's request |
| EndToEnd.EndToEndCompletion | rpc/detail/rpc_client_impl.cc:163-181 | over bytes, the calls whose callback has run are exactly those for which the client's read loop decoded a response, each of them once |
| Services.PoolIsExact | rpc/detail/rpc_server_impl.cc:128-151 | the AddService calls complete if and only if no two names hash alike, and then the pool holds exactly the services, each under its name's hash |
| Services.RPCServerImpl.AddService | rpc/detail/rpc_server_impl.cc:128-143 | succeeds exactly when the hash is new; otherwise names the same service or the colliding one |
| Services.RPCServerImpl.GetService | rpc/detail/rpc_server_impl.cc:145-151 | finds a service exactly when one with that hash was added |
| Services.RPCServerImpl.CallMethod | rpc/detail/rpc_server_impl.cc:153-193 | crashes if and only if no added service has the message's id; otherwise the service with that id decides: an index out of its methods' range is undefined, exactly its answer is queued on the request's channel, and nothing is if the request does not parse |
| Services.ResponseNamesItsCall | rpc/detail/rpc_server_impl.cc:195-206 | the frame of a response decodes to a message with the request's sequence number and the service's answer |
| Services.WireSize | rpc/detail/protocol/rpc.pb.cc:317-320 | a hash of 2^31 and above travels as a ten-byte varint, a smaller one in at most five |
| Services.RegisteredServiceFound | rpc/detail/rpc_server_impl.cc:153-158 | the id a client computes, serialised and parsed, finds exactly the registered service of that name, and nothing if and only if no registered name has that hash |
| Services.CallRunsItsMethod | rpc/detail/rpc_server_impl.cc:153-193 | in every run, what the server serves for a call of a registered service's method makes that service run that method on that payload |
| Services.ServiceIdsDiffer | rpc/detail/helper.h:17-19 | service ids tell apart names that differ in the bytes of one fetch, and names of 13 to 24 bytes with the same words and different lengths |
| Services.OwnServices | benchmark/protocol/benchmark.proto:11 | the ids of the repository's own two services, which register side by side |
| Services.RequestsReachServices | rpc/detail/rpc_server_impl.cc:153-165 | from names to services over the wire: any division into reads that the server survives dispatches every request, in order, to the service it names |
| Ownership.StepKeeps | rpc/detail/network_dispatcher.cc:28-63 | every start, read, write and close step keeps the accounts of all channels |
| Ownership.CountTheorem | rpc/detail/ref_count.h:21-38 | in every reachable state a channel's count is its counted pointers plus its pool membership and positive, no handler or pool entry dangles, and the pool is within its threshold |
| Ownership.DeletionTheorem | rpc/detail/ref_count.h:27-38 | a step deletes at most the channel whose handler it runs, exactly when no pointer and no pool membership remains |
| Ownership.ReadTheorem | rpc/detail/rpc_channel.cc:48-104 | the UnRef inside ReadInLoop never deletes the reading channel; a first error takes it out of the pool |
| Ownership.LeakTheorem | rpc/detail/rpc_channel.cc:50-55 | a live channel is never deleted, in any continuation, if and only if it was terminated while in the pool; one that no handler holds is such a channel |
| Ownership.LeakHappens | rpc/detail/network_dispatcher.cc:21-26 | a run that leaves a live channel which nothing but the pool holds |
| Ownership.TerminatedStaysForGood | rpc/detail/rpc_channel.cc:50-55 | a terminated channel in the pool stays there, live, over every run |
| Ownership.OneOperationTheorem | rpc/detail/rpc_channel.h:30-42 | at most one start or read and at most one write outstanding per channel; a pooled, unterminated channel is reading |
| Ownership.StartTheorem | rpc/detail/network_dispatcher.cc:39-63 | a start is refused exactly when the pool holds `threshold` channels, and the channel is then terminated; otherwise it joins the pool and reads |
| Ownership.CloseTheorem | rpc/detail/network_dispatcher.cc:21-26 | closing terminates every channel in the pool and touches nothing else |
| Ownership.QueueTheorem | rpc/detail/rpc_channel.cc:106-155 | over every run, a live channel's queue holds the responses handed to SendInLoop less those whose write completed, counted from the steps |
| Ownership.WriteTheorem | rpc/detail/rpc_channel.cc:131-155 | a completed write takes one response off the queue and the next write starts exactly when one is left; a failed write does neither |
| Dispatcher.NetworkDispatcher.SaveChannel | rpc/detail/network_dispatcher.cc:39-52 | saved exactly when the pool is not full; on all channels, the state change of the run model |
| Dispatcher.NetworkDispatcher.ReleaseChannel | rpc/detail/network_dispatcher.cc:28-37 | on all channels, the state change of the run model, deletion at zero included |
| Dispatcher.NetworkDispatcher.Accepted | rpc/detail/rpc_server_impl.cc:75-86 | allocation, the posted start handler and the end of the caller's pointer perform the accept step |
| Dispatcher.NetworkDispatcher.StartChannelInLoop | rpc/detail/network_dispatcher.cc:54-63 | performs the start step, the end of its handler included |
| Dispatcher.NetworkDispatcher.ReadInLoop | rpc/detail/rpc_channel.cc:48-104 | performs the read step, for every outcome, the end of its handler included |
| Dispatcher.NetworkDispatcher.Written | rpc/detail/rpc_channel.cc:131-155 | performs the write-completion step, the end of its handler included |
| Dispatcher.NetworkDispatcher.CloseAllChannelsInLoop | rpc/detail/network_dispatcher.cc:21-26 | the loop over the pool performs the close step |
| City32.RotateMeansShifts | rpc/detail/city.cc:122-125 | the rotation is the pair of shifts the code writes |
| City32.FmixBijection | rpc/detail/city.cc:112-120 | fmix is a bijection on 32-bit words, with its inverse |
| City32.MurBijection | rpc/detail/city.cc:130-138 | each argument of Mur is recovered from the result and the other argument |
| City32.MurChainDistinguishes | rpc/detail/city.cc:140-150 | changing one word of a Mur chain changes its result |
| City32.OneFetchNamesDiffer | rpc/detail/city.cc:140-169 | two names of one length from 5 to 24 that differ only in bytes read by one fetch and no other never have the same CityHash32 |
| City32.OneWordNamesDiffer | rpc/detail/city.cc:140-150 | two 24-byte names that differ only inside one aligned word never have the same CityHash32 |
| City32.MiddleLengthsDiffer | rpc/detail/city.cc:140-150 | two names of 13 to 24 bytes with the same six fetched words and different lengths never collide |
| City32.ShortLengthsDiffer | rpc/detail/city.cc:163-169 | two names of 5 to 12 bytes hashed from the same words never collide if their lengths differ |
| City32.ShortNamesCollide | rpc/detail/city.cc:163-169 | two names of 5 to 12 bytes with the same third word collide if and only if the first two words and the lengths already lead to the same value |
| KnownHashes.LengthsMayCollide | rpc/detail/city.cc:163-169 | two names of 12 and 11 bytes with the same fetched words that collide |
| City32.RoundBijection | rpc/detail/city.cc:202-224 | one round with fixed content is a permutation of (f, g, h) |
| City32.MainLoopBijection | rpc/detail/city.cc:200-226 | any number of rounds over any content is a permutation of the state |
| City32.StartDistinguishes | rpc/detail/city.cc:179-199 | inputs over 24 bytes that differ in one tail word, or in the length alone, start from different states |
| City32.FinalMixBijection | rpc/detail/city.cc:227-237 | the final mix is a bijection in each of f, g and h for fixed values of the other two |
| KnownHashes.EmptyName | rpc/detail/city.cc:152-161 | the hash of the empty name |
| KnownHashes.ShortNameHash | rpc/detail/city.cc:152-161 | the hash of a name of three bytes, one of them a negative char |
| KnownHashes.HelloHash | rpc/detail/city.cc:163-169 | the hash of "hello" |
| KnownHashes.GreetingHash | rpc/detail/city.cc:163-169 | the hash of "hello world" |
| KnownHashes.PingPongHash | rpc/detail/city.cc:140-150 | the hash of "PingPongTesting" |
| KnownHashes.BenchmarkHash | rpc/detail/city.cc:140-150 | the hash of "BenchmarkInterface" |
| KnownHashes.LongNameHash | rpc/detail/city.cc:171-238 | the hash of "gboost_rpc.BenchmarkInterface", through preamble, round and final mix |
| City32.ComputeCityHash32 | rpc/detail/city.cc:140-238 | for every length, the source's statements and loops compute the function and read exactly the bytes of the string: all of them and none outside |
| City64.RotateMeansShifts | rpc/detail/city.cc:242-245 | the 64-bit rotation is the pair of shifts the code writes |
| City64.HashLen16Injective | rpc/detail/city.h:101-110 | the first argument of Hash128to64 is recovered from the result and the second |
| City64.SeedsKeepCollisions | rpc/detail/city.cc:390-393 | for fixed seeds two strings collide under CityHash64WithSeeds if and only if they collide under CityHash64 |
| KnownLongHashes.ThreeHash | rpc/detail/city.cc:265-288 | CityHash64 of three bytes |
| KnownLongHashes.ThreeSeededHash | rpc/detail/city.cc:390-393 | CityHash64WithSeeds of three bytes |
| KnownLongHashes.FiveHash | rpc/detail/city.cc:265-288 | CityHash64 of five bytes |
| KnownLongHashes.Eleven64Hash | rpc/detail/city.cc:265-288 | CityHash64 of eleven bytes |
| KnownLongHashes.TwentyNineHash | rpc/detail/city.cc:292-300 | CityHash64 of 29 bytes |
| KnownLongHashes.FortyHash | rpc/detail/city.cc:327-346 | CityHash64 of 40 bytes |
| KnownLongHashes.SeventyHash | rpc/detail/city.cc:348-384 | CityHash64 of 70 bytes, through start, block and finish |
| KnownLongHashes.Eleven128Hash | rpc/detail/city.cc:397-425 | CityHash128 of eleven bytes |
| KnownLongHashes.FortyFiveHash | rpc/detail/city.cc:397-425 | CityHash128 of 45 bytes, through the seed bytes and the loop of CityMurmur |
| KnownLongHashes.SeededHash | rpc/detail/city.cc:427-495 | CityHash128 of 146 bytes, through seed, two blocks, turn, tail and finish |
| City64.ComputeCityHash64 | rpc/detail/city.cc:265-384 | for every length, the source's statements and loops compute the function and read exactly the bytes of the string |
| City64.BlockStepCollides | rpc/detail/city.cc:371-378 | two states reach the same state through a block if and only if they agree on z, w, v.second and two sums |
| City64.BlockStepForgets | rpc/detail/city.cc:371-378 | for every state and every value of y there is exactly one state with that y and the same successor: 64 bits are lost per block |
| City128.ComputeCityMurmur | rpc/detail/city.cc:397-425 | both branches and the loop compute the function and read exactly the bytes of the string |
| City128.MixBlockPairs | rpc/detail/city.cc:443-464 | the unrolled loop is two CityHash64 block steps per pass, and reads exactly the blocks |
| City128.MixTail | rpc/detail/city.cc:470-480 | the tail loop takes 32-byte chunks back from the end, reads exactly them, and may reach before the pointer |
| City128.ComputeCityHash128WithSeed | rpc/detail/city.cc:427-488 | for every length, the whole function computes its specification and reads exactly the bytes of the string |
| City128.ComputeCityHash128 | rpc/detail/city.cc:490-495 | the seed bytes and the rest together are exactly the bytes of the string |
| Events.AtomicTheorem | rpc/atomic_event.h:15-30 | after every interleaving, spurious failures and stale loads included, the value is the number of notifies less the number of completed waits among the steps, and never negative |
| Events.WaitersPay | rpc/atomic_event.h:19-30 | a thread is inside Wait exactly while a call of its has no exchange of its own: none leaves without taking |
| Events.WaiterPasses | rpc/atomic_event.h:19-30 | an undisturbed waiter gets through a positive value and takes exactly one; at 0 none does |
| Events.SyncTheorem | rpc/sync_event.h:15-25 | after every interleaving, the value is the notifies less the completed waits among the steps, or with auto-reset the notifies since the last completed wait; waits never exceed notifies, the check in Wait holds, and no thread sleeps beside a positive value unless a notifier is about to signal |
| Events.CallersPay | rpc/sync_event.h:15-47 | no thread leaves Wait without taking, or Notify without adding |

## Left out

- Boost.Asio sockets, the acceptor, signals, timers, address parsing and the first `Connect`: only their completions appear, as steps.
- Thread start and stop in `NetworkDispatcher`, and use of the plain reference count by several threads.
- `SyncEvent::TimedWait`, which returns from its timed path without consuming a token, and `Semaphore`.
- The `CityHashCrc` functions: hardware intrinsics.
- Payload parsing, user services, benchmark and test messages: payloads are bytes, and a service is any function from request bytes to an answer or a parse failure. A service that runs `done` later is in `Protocol`, not in `Services.RPCServerImpl.CallMethod`.
- Metadata.MergePartialFromCodedStream: skips unknown fields and forgets them, where the source keeps them, counts them in `ByteSize` and sends them back in responses; it does not skip groups, and has none of the protobuf library's limits on stream size, nesting and int lengths.
- The branch of `ToBuffer` that reuses a buffer: `GetBuffer` calls it only when there is none.
- The 32-bit counters of the read loop and the reference count: a read is no longer than its buffer, and counts stay small.
- Round-robin dispatcher choice, logging, flags and callbacks; easy members.
- Liveness: the code does not promise that every call finishes.
- The server's own write queue in `Protocol`: responses enter the connection in `SendInLoop` order, and the write pump is proved on the client side, which shares `RPCChannel`; `Ownership` has the server's pump as far as lifetime goes. The same holds for `EndToEnd`.
- Inheritance: `RefCount`, `RPCChannel` and the channels derived from it are one class each time, holding the fields that matter there.
- Events.AtomicTheorem: models the calls as interleaved steps and not as methods, because other threads act inside a call.
- Events.SyncTheorem: models the calls as interleaved steps and not as methods, for the same reason.
