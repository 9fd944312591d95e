# Dispatcher middleware: a verified model

The system is a publish/subscribe simulation middleware. A mesh of dispatcher daemons
carries framed messages between model processes over non-blocking TCP. This project
models the transport and routing engine, the two-thread handshake of the CMD models and
the state machines around them, and proves what they keep in every run.

How the files are organised:

| area | files | main theorems |
|---|---|---|
| framed transport | `Frames`, `Receive`, `RubyPeer`, `Transmit`, `Race`, `RaceRuns`, `Fifo` | `Fifo.DeliveredIsPrefix`, `Fifo.EverythingArrives`, `Fifo.Conservation`, `Receive.UpcallsRefineParse`, `Receive.HeaderBoundary`, `RubyPeer.ReceiversAgreeOnFrames`, `Transmit.OutputsDrain`, `Race.OrderKeptIff`, `Race.IntactIff`, `Race.WakeupKeptIff` |
| mesh routing | `Mesh`, `Views`, `Dispatch`, `Formation` | `Mesh.AtMostOnce`, `Mesh.ExactlyOnce`, `Views.OneHopIff`, `Dispatch.ProcessRefinesMesh`, `Formation.MeshIsComplete`, `Formation.MeshCompleteIff`, `Formation.AnnealedMeshDelivers` |
| tables and caches | `Identity`, `RouteCache` | `Identity.MultiIndex.Insert`, `RouteCache.LookupIsResident` |
| CMD handshake | `Handshake` | `Handshake.Safety`, `Handshake.RoundsGrow`, `Handshake.FinalReportIff`, `Handshake.FinalReportInEveryContinuation`, `Handshake.MessagingReturnsIff` |
| smaller machines | `FrameQueue`, `Tater`, `Stats`, `Reconnect`, `Pdu` | `FrameQueue.RunConserves`, `Tater.RingConserves`, `Stats.VarianceIsSound`, `Reconnect.BacksOffIff`, `Pdu.ReadsAreLastWrites` |

Each area has the same shape. A pure step function says what one operation does; an
object with the source's fields has methods that are proved to do exactly that step; and
lemmas over arbitrary runs of steps state what the system promises. The environment is
adversarial: how many bytes a send or a recv moves, when wakeups and upcalls happen, how
threads interleave (threads are program counters of one state machine), in which order
connections open and carry HELLOs, when each end notices that one has failed, which handle
numbers sockets get, and what the application answers are all free choices of the run.

Abstractions made throughout: a header has a constant length H > 0 and its data length is
an arbitrary function of its bytes; database queries are functions of one shared relation;
handlers are numbers; doubles in the statistics are reals; sockets, timers and the reactor
are steps of the environment.

## Where the code does less than one would expect

These are stated as lemmas with the exact condition:

- A header-stage recv that would block returns -1, which is added to the byte count
  unchecked: the last header byte held is overwritten by the next read. A receiver still
  open has delivered and holds the parse of the bytes it consumed if and only if that never
  happened (`Receive.HeaderBoundary`); `Receive.MissDeliversForeignEvent` is a stream of
  two frames from which a third is delivered.
- End of file inside a frame is taken for a short read; the connection is closed by a
  zero-byte read if and only if no fragment is held (`Receive.EndOfFile`).
- When the remainder of a partly sent block cannot be put back at the head of the queue,
  its bytes are lost; conservation of one step holds if and only if the block went out
  whole or the remainder was queued (`Transmit.NonblkPutAccount`, `Transmit.PutAccount`,
  `Transmit.HandleOutputAccount`).
- With several threads (option -t) only a single send and a single queue operation are
  atomic; the test of the queue, the send, the re-queueing of a remainder, the moving of the
  read pointer and the scheduling and cancelling of the wakeup can all be interleaved.
  Messages go out in the order of their puts, each byte once, if and only if no thread sends
  data of a message while an earlier one is not out, or from a block whose read pointer is
  still to be moved (`Race.OrderKeptIff`); they go out whole, in whatever order, if and only
  if no thread sends while another message is out in part, or from such a block
  (`Race.IntactIff`). Runs that fail: a put between dequeue and send
  (`RaceRuns.OvertakingRun`, `RaceRuns.OvertakingCorrupts`), between send and re-queueing of
  the wakeup (`RaceRuns.GapRun`) or of another put (`RaceRuns.PutGapRun`), and a wakeup that
  sends bytes again (`RaceRuns.ResendingRun`). Registration of the wakeup agrees with the
  queue if and only if no cancel or append came too late and no wakeup was scheduled in vain
  (`Race.WakeupKeptIff`); output stranded that way is never sent (`Race.StrandedForever`,
  `RaceRuns.StrandingRun`).
- When connections fail, a mesh that has settled need not be complete. If the connecting end
  reconnects before the accepting end has noticed, the new HELLO is refused and the old
  entry is removed afterwards (`Formation.OneSidedLoss`); and a lost connection leaves its
  handle number in the table, where it blocks another node's HELLO
  (`Formation.ReusedHandle`). The mesh is complete if and only if no step of the run used up
  the last chance of a pair without a later step setting it right
  (`Formation.MeshCompleteIff`); without failures it always is (`Formation.MeshIsComplete`),
  and with failures it is as long as connections are opened only when the accepting end has
  let go of the old link and on handle numbers no entry names
  (`Formation.CarefulMeshIsComplete`).
- Point-to-point routing ignores the dispatched bit. The addressee's own dispatcher sends a
  message on if and only if the addressee is unregistered and the dispatcher has a D2D
  entry for itself (`Mesh.ForwardsAtHomeIff`), and then the message circulates for ever
  (`Mesh.SelfLinkLoops`); formation never creates such an entry
  (`Formation.TablesStaySound`). Where dispatchers see different placements, no message makes
  a second hop if and only if nobody to whom one would send it would send it on
  (`Views.OneHopIff`); two that place the addressee at each other send it to and fro for ever
  (`Views.Shuttles`).
- The final report of CMD_Target can wait for ever (`Handshake.FinalReportCanHang`, exact
  condition in `Handshake.FinalReportIff`), and in CMD_Radar and CMD_Missile the messaging
  thread can be left waiting for a simulation that has ended (`Handshake.MessagingCanHang`,
  exact condition in `Handshake.MessagingReturnsIff`).
- Reconnect backoff follows min(2^k, max) if and only if 1 <= max < 2^31: `initialize` does
  not clamp the first delay, and unsigned doubling wraps to 0 (`Reconnect.BacksOffIff`).
- The kept minimum and maximum leave out the first sample once there are two; they are those
  of all samples if and only if the first does not lie outside them (`Stats.ExtremesIff`,
  failing samples in `Stats.FirstSampleIsMissed`).
- The size an Entity State PDU announces stays inside its layout if and only if the
  parameter count is at most 78 (`Pdu.SizeFollowsCount`).

## Model

| member | source | states |
|---|---|---|
| Frames.ParseReassembles | dispatcherd/ReceiveHandler.cpp:177-500 | frames found in a byte stream, written out again and followed by the unfinished tail, are the stream; the tail holds no complete frame |
| Frames.ParseStops | dispatcherd/ReceiveHandler.cpp:317-478 | parsing stops at an incomplete frame, or at a whole header announcing a negative length, and says which |
| Frames.ParseOfWire | dispatcherd/ReceiveHandler.cpp:177-500 | round trip: a stream of well-formed frames parses back to exactly those frames with nothing left |
| Frames.ParseResumes | dispatcherd/ReceiveHandler.cpp:177-500 | parsing may stop at any byte and resume from the unfinished tail with the same result |
| Frames.BadStaysBad | dispatcherd/ReceiveHandler.cpp:317-478 | a header announcing a negative length is never repaired by later bytes |
| Frames.ParsePrefixOfWire | dispatcherd/ReceiveHandler.cpp:177-500 | any prefix of a stream of frames yields a prefix of the frames, and all of them at the end |
| Receive.DataStageAgrees | dispatcherd/ReceiveHandler.cpp:317-478 | the data stage takes bytes in order; its outcome and fragment are the parse of what is held plus what was taken |
| Receive.ClosesIff | dispatcherd/ReceiveHandler.cpp:246-478 | over every upcall: it closes the connection iff a recv it makes fails other than by would-block, nothing is held after the header stage, or a completed header announces a negative length; the last iff it is called malformed |
| Receive.DataStageByGrant | dispatcherd/ReceiveHandler.cpp:378-410 | with a complete header: would-block and a zero-byte read keep connection and fragment as they are, a failed read closes, and the event is delivered iff the read brings the data to its full length |
| Receive.HeaderThenNoData | dispatcherd/ReceiveHandler.cpp:317-390 | a header just completed whose data would block is kept whole with the connection open; a failed data read closes |
| Receive.OpenIff | dispatcherd/ReceiveHandler.cpp:528-688 | on a stream of well-formed frames without header-stage would-blocks the receiver is open after a run iff no recv of it failed and none met end of file with nothing held |
| Receive.RecvCallAgrees | dispatcherd/ReceiveHandler.cpp:191-478 | one upcall without a header-stage would-block leaves exactly the parse of fragment plus bytes taken, with header_recvd_ between 0 and H and data held strictly below the announced length |
| Receive.RecvCallMoves | dispatcherd/ReceiveHandler.cpp:191-478 | an upcall on a readable socket consumes at least one byte and closes only on a malformed header |
| Receive.EndOfFile | dispatcherd/ReceiveHandler.cpp:246-276 | a zero-byte read closes the connection iff no fragment is held; otherwise nothing changes |
| Receive.UpcallsRefineParse | dispatcherd/ReceiveHandler.cpp:177-500 | chunk independence: for every schedule of reads in which no header-stage recv would block, the events delivered and the fragment held are the parse of the bytes consumed |
| Receive.ChunkingIsInvisible | dispatcherd/ReceiveHandler.cpp:177-500 | two schedules that consumed equally many bytes of one stream delivered the same events |
| Receive.HeaderCountDrift | dispatcherd/ReceiveHandler.cpp:244-276 | over every run of the receiver, bytes taken are bytes delivered plus bytes believed held, plus one for every header-stage recv that would have blocked |
| Receive.HeaderBoundary | dispatcherd/ReceiveHandler.cpp:244-276 | an open receiver has delivered and holds the parse of the bytes consumed iff no header-stage recv of the run would have blocked |
| Receive.MissShiftsHeader | dispatcherd/ReceiveHandler.cpp:230-246 | after k header bytes and one would-block the next read overwrites the k-th byte, and the header completed is the stream without that byte |
| Receive.MissLosesByte | dispatcherd/ReceiveHandler.cpp:230-246 | with no header byte held, a would-block makes the first byte that comes be lost, and the header completed is the stream without it |
| Receive.MissDeliversForeignEvent | dispatcherd/ReceiveHandler.cpp:230-276 | from two header-only frames the receiver then delivers a third, made of the end of one and the start of the other |
| Receive.Socket.Recv | dispatcherd/ReceiveHandler.cpp:230-244 | bytes are stored behind those already held, in stream order, and leave the stream; those for positions in front of the buffer are lost; -1 changes nothing |
| Receive.ReceiveHandler.RecvHeader | dispatcherd/ReceiveHandler.cpp:177-276 | the fields and buffers change exactly as the upcall function says, on every branch and every result of the header-stage recv |
| Receive.ReceiveHandler.ReadHeader | dispatcherd/ReceiveHandler.cpp:230-244 | the header-stage recv on the buffer, its result added to header_recvd_ whatever it is |
| Receive.ReceiveHandler.ReadData | dispatcherd/ReceiveHandler.cpp:317-500 | the data stage on the buffers does exactly what the data-stage function says, whose outcome for every grant DataStageByGrant and HeaderThenNoData pin down |
| Receive.ReceiveHandler.FillData | dispatcherd/ReceiveHandler.cpp:340-395 | the data block is allocated once and filled behind the bytes already in it |
| Receive.ReceiveHandler.Reset | dispatcherd/ReceiveHandler.cpp:478-500 | after a complete frame no fragment is held |
| RubyPeer.SplitIsParse | RubyPeer/dispatcher_protocol.rb:99-168 | unless the process exits on a bad magic, the splitter cuts exactly the parser's frames and keeps its tail; if it exits, what was cut is a prefix |
| RubyPeer.ExitsOnForeignFrame | RubyPeer/dispatcher_protocol.rb:99-168 | on a stream of frames the process exits iff some frame lacks the magic |
| RubyPeer.MagicIsSN | RubyPeer/dispatcher_protocol.rb:123-123 | the magic is the letters SN |
| RubyPeer.LeftOversIncomplete | RubyPeer/dispatcher_protocol.rb:99-168 | left-overs are always an incomplete frame |
| RubyPeer.FeedRefinesParse | RubyPeer/dispatcher_protocol.rb:99-168 | chunk independence: over any chunks, messages and left-overs are the parse of all bytes fed |
| RubyPeer.SplitOfFrames | RubyPeer/dispatcher_protocol.rb:99-168 | cut anywhere, a stream of frames never makes the process exit and the left-overs line up with the frames still to come |
| RubyPeer.ReceiversAgree | RubyPeer/dispatcher_protocol.rb:99-287 | having seen the same bytes, the Ruby peer and a dispatcher without header-stage would-blocks have the same messages and hold the same incomplete frame, whatever the chunking and read sizes |
| RubyPeer.ReceiversAgreeIff | RubyPeer/dispatcher_protocol.rb:99-287 | an open dispatcher is in step with the Ruby peer iff none of its header-stage recvs would have blocked |
| RubyPeer.ReceiversAgreeOnFrames | RubyPeer/dispatcher_protocol.rb:99-287 | on streams of well-formed frames both always agree, produce a prefix of the frames, and all of them at the end |
| RubyPeer.IseProtocol.Cut | RubyPeer/dispatcher_protocol.rb:99-168 | the framing loop ends, queues the splitter's messages behind the queue and keeps its left-overs |
| RubyPeer.IseProtocol.WorkOff | RubyPeer/dispatcher_protocol.rb:172-287 | the dispatch loop handles this call's messages in order and compacting the queue removes exactly them |
| RubyPeer.IseProtocol.ReceiveData | RubyPeer/dispatcher_protocol.rb:99-287 | one call handles the messages of left-overs plus new data in stream order and leaves the queue as it was (empty, from a fresh object) |
| Transmit.PutKeepsConsistent | dispatcherd/TransmitHandler.cpp:127-149 | after put a wakeup is registered iff the queue is non-empty, and no empty block is queued |
| Transmit.HandleOutputKeepsConsistent | dispatcherd/TransmitHandler.cpp:387-441 | the same after every write wakeup, whatever the send did |
| Transmit.NonblkPutAccount | dispatcherd/TransmitHandler.cpp:157-273 | bytes sent plus queue, in order, keep the whole block iff it went out whole or its remainder was queued in front; -1 is returned iff bytes were lost |
| Transmit.FailsIff | dispatcherd/TransmitHandler.cpp:157-273 | a handler is failed iff a send it made failed for good; such a send re-queues nothing |
| Transmit.PutReturns | dispatcherd/TransmitHandler.cpp:127-149 | put returns -1 iff it could not take the message, else the bytes sent at once or the number of blocks queued |
| Transmit.PutAccount | dispatcherd/TransmitHandler.cpp:127-149 | an accepted message is appended to the account; a refused one contributes nothing iff none of its bytes had been moved |
| Transmit.HandleOutputAccount | dispatcherd/TransmitHandler.cpp:387-441 | a wakeup leaves the account unchanged iff the head went out whole or its remainder was queued again |
| Transmit.HandleOutputDrains | dispatcherd/TransmitHandler.cpp:387-441 | pending bytes fall by exactly what the wakeup moved |
| Transmit.OutputsDrain | dispatcherd/TransmitHandler.cpp:279-447 | as many progressing wakeups as pending bytes empty the queue, cancel the wakeup and put on the wire exactly what was owed |
| Transmit.TransmitHandler.NonblockingPut | dispatcherd/TransmitHandler.cpp:157-273 | on block objects with read pointers: the modelled send, with the block object in front of the queue iff a remainder is pending |
| Transmit.TransmitHandler.PutBlock | dispatcherd/TransmitHandler.cpp:127-149 | put on the object is the modelled put, result value included |
| Transmit.TransmitHandler.PutEvent | dispatcherd/TransmitHandler.cpp:40-119 | header and data go out as one block, header first; a failed connection accepts nothing and changes nothing |
| Transmit.TransmitHandler.Output | dispatcherd/TransmitHandler.cpp:387-441 | handle_output on the object, uninterrupted, is the modelled wakeup |
| Transmit.TransmitHandler.Consolidate | dispatcherd/TransmitHandler.cpp:450-488 | the new block holds the concatenation of the chain |
| Race.MoveEffect | dispatcherd/TransmitHandler.cpp:157-273 | a send by any thread puts the units after its block's read pointer on the wire and moves on its message alone |
| Race.OtherEffect | dispatcherd/TransmitHandler.cpp:127-273 | no other step changes the wire or how far any message has got |
| Race.OrderKeptIff | dispatcherd/TransmitHandler.cpp:127-273 | in every interleaving the wire is a prefix of the messages in the order their puts tested the queue, each byte once, iff no send went out while an earlier message was unfinished or from a block whose read pointer was still to be moved |
| Race.IntactIff | dispatcherd/TransmitHandler.cpp:127-273 | in every interleaving the wire is a sequence of whole messages, none twice, iff no send went out while another message was out in part or from a block whose read pointer was still to be moved |
| Race.ServedIff | dispatcherd/TransmitHandler.cpp:127-149 | in every interleaving output is queued with no wakeup registered or about to be iff a cancel or a tail enqueue came too late and no remainder was queued since |
| Race.VainIff | dispatcherd/TransmitHandler.cpp:157-273 | a wakeup is registered for an empty queue iff a put scheduled it after its block had been taken and nothing was queued since |
| Race.WakeupKeptIff | dispatcherd/TransmitHandler.cpp:387-441 | with no thread at work a wakeup is registered exactly when output is queued iff neither happened |
| Race.StrandedForever | dispatcherd/TransmitHandler.cpp:138-148 | stranded output is never sent, whatever is put later |
| RaceRuns.UninterruptedIsHandleOutput | dispatcherd/TransmitHandler.cpp:387-441 | the steps of a wakeup with nothing in between are handle_output of the sequential model |
| RaceRuns.UninterruptedIsPut | dispatcherd/TransmitHandler.cpp:127-149 | the steps of a put with nothing in between are put of the sequential model |
| RaceRuns.OvertakingRun | dispatcherd/TransmitHandler.cpp:387-390 | a put between a wakeup's dequeue and its send puts its message inside the other |
| RaceRuns.GapRun | dispatcherd/TransmitHandler.cpp:166-234 | so does a put between the send and the re-queueing of a wakeup, where the lock has been released |
| RaceRuns.PutGapRun | dispatcherd/TransmitHandler.cpp:138-234 | and between those of another put |
| RaceRuns.ResendingRun | dispatcherd/TransmitHandler.cpp:186-209 | when a send would block, a wakeup between the re-queueing and the moving of the read pointer sends the same byte again |
| RaceRuns.StrandingRun | dispatcherd/TransmitHandler.cpp:138-148 | a put that found the queue busy appends after the wakeup was cancelled, and is stranded |
| RaceRuns.OvertakingCorrupts | dispatcherd/TransmitHandler.cpp:387-390 | two frames put, and the two others that are received |
| Fifo.PutKeepsInv | dispatcherd/TransmitHandler.cpp:127-149 | put keeps the end-to-end invariant |
| Fifo.WakeupKeepsInv | dispatcherd/TransmitHandler.cpp:387-441 | a write wakeup keeps it |
| Fifo.ReadKeepsInv | dispatcherd/ReceiveHandler.cpp:177-500 | a read upcall of any size keeps it |
| Fifo.Conservation | dispatcherd/TransmitHandler.cpp:127-273 | in every run, wire bytes followed by the queue, head first, are the accepted messages in order; a wakeup is registered iff the queue is non-empty |
| Fifo.DeliveredIsPrefix | dispatcherd/ReceiveHandler.cpp:177-500 | end-to-end FIFO: in every run the delivered events are a prefix of the accepted messages, and all of them once queue and wire are empty |
| Fifo.ReadIsNeverMalformed | dispatcherd/ReceiveHandler.cpp:177-500 | the receiver never takes the malformed-header exit on a stream this sender produced |
| Fifo.AllDelivered | dispatcherd/ReceiveHandler.cpp:528-688 | with the queue drained, as many readable upcalls as bytes in flight deliver every accepted message |
| Fifo.EverythingArrives | dispatcherd/TransmitHandler.cpp:279-447 | from any open state of any run, enough progressing wakeups followed by enough readable upcalls deliver every accepted message |
| Mesh.ArriveNeverForwards | dispatcherd/PubSubDispatch.cpp:400-551 | a copy that came from a dispatcher never causes another dispatcher-to-dispatcher send |
| Mesh.PublishKeepsInv | dispatcherd/PubSubDispatch.cpp:400-551 | publishing keeps the routing invariant |
| Mesh.ArriveKeepsInv | dispatcherd/PubSubDispatch.cpp:400-551 | an arrival keeps it |
| Mesh.RunKeepsInv | dispatcherd/PubSubDispatch.cpp:158-335 | every run keeps it, including arbitrary changes of tables and subscriptions |
| Mesh.AtMostOnce | dispatcherd/PubSubDispatch.cpp:400-699 | in every run over any mesh no model gets two copies of a message, no copy makes a second hop, and point-to-point messages reach only the named peer or master |
| Mesh.PublishAccounts | dispatcherd/PubSubDispatch.cpp:400-551 | after publishing, every entitled model has its copy or one is on its way to its dispatcher |
| Mesh.ArriveAccounts | dispatcherd/PubSubDispatch.cpp:771-850 | an arrival hands copies to exactly the entitled models of that dispatcher |
| Mesh.ExactlyOnce | dispatcherd/PubSubDispatch.cpp:400-850 | once no copy of a message is under way each model has exactly one copy if it is entitled and reachable in one hop, and none otherwise |
| Mesh.FirstCopyTravels | dispatcherd/PubSubDispatch.cpp:400-551 | a published message does put a copy under way to the dispatcher of each entitled model elsewhere, and its arrival hands it over |
| Mesh.CompleteMeshDelivers | dispatcherd/PubSubDispatch.cpp:400-850 | in a complete mesh every registered subscriber, job member or addressee gets exactly one copy, and nobody else any |
| Mesh.ArrivalsDrain | dispatcherd/PubSubDispatch.cpp:400-551 | arrivals alone empty the network |
| Mesh.ForwardsAtHomeIff | dispatcherd/PubSubDispatch.cpp:618-699 | the addressee's own dispatcher sends a point-to-point message on iff the addressee is unregistered and the D2D table has a self entry |
| Mesh.SelfLinkLoops | dispatcherd/PubSubDispatch.cpp:618-699 | in that case the message circulates through any number of hops undelivered |
| Views.RunKeepsHops | dispatcherd/PubSubDispatch.cpp:618-699 | if nobody to whom a dispatcher would send a point-to-point message would send it on, every copy in every run is on its first hop |
| Views.OneHopIff | dispatcherd/PubSubDispatch.cpp:558-699 | with a placement per dispatcher, no message makes a second hop in any run iff that holds |
| Views.SharedViewSettles | dispatcherd/PubSubDispatch.cpp:618-699 | one shared placement and no self entries are enough |
| Views.Shuttles | dispatcherd/PubSubDispatch.cpp:618-699 | two dispatchers that take the addressee to be at each other send a message to and fro for ever |
| Views.DisagreementShuttles | dispatcherd/PeerRouteCache.cpp:55-70 | cached routes that place the addressee at each other, over links both ways, are such |
| Dispatch.PubSubDispatch.Process | dispatcherd/PubSubDispatch.cpp:284-325 | the handlers written to in order, the models unsubscribed, and the dispatched bit with which copies leave; a connection message goes to the handlers of the connection, a nowhere message nowhere with its bit kept |
| Dispatch.FirstFlagDecides | dispatcherd/PubSubDispatch.cpp:284-325 | with several flags set the message is treated as if it had only the one tested first: master, peer, job, connection, nowhere, subscribers |
| Dispatch.OtherAnswersDoNotCount | dispatcherd/PubSubDispatch.cpp:284-325 | the answers for any other flag have no influence on what is sent |
| Dispatch.ConnectionGetsAll | dispatcherd/PubSubDispatch.cpp:706-766 | each handler of the named connection gets the message exactly once and nobody else any, whatever the dispatched bit |
| Dispatch.NowhereIsSilent | dispatcherd/PubSubDispatch.cpp:316-319 | a nowhere message is sent to nobody, unsubscribes nobody and keeps its bit |
| Dispatch.DroppedIff | dispatcherd/PubSubDispatch.cpp:460-490 | a model is unsubscribed iff the message is for subscribers, lists it as local and it has no registration |
| Dispatch.OnlyUniqueRoutes | dispatcherd/PubSubDispatch.cpp:558-699 | a master or peer route that is missing or ambiguous drops the message |
| Dispatch.PubSubDispatch.RouteToSubscriber | dispatcherd/PubSubDispatch.cpp:400-551 | every local subscriber with a handler, then remote nodes only if not yet dispatched; local subscribers without a handler are unsubscribed |
| Dispatch.PubSubDispatch.RouteToJob | dispatcherd/PubSubDispatch.cpp:771-850 | every registered model of the job here, then all other dispatchers only if not yet dispatched |
| Dispatch.PubSubDispatch.SendAll | dispatcherd/PubSubDispatch.cpp:771-850 | each listed id with a table entry is written to, in order; others are skipped |
| Dispatch.PubSubDispatch.RouteToOne | dispatcherd/PubSubDispatch.cpp:558-699 | local delivery if the route is here and registered, else the D2D entry of its node, else nothing |
| Dispatch.PubSubDispatch.RouteToConnection | dispatcherd/PubSubDispatch.cpp:750-757 | every handler of the connection is written to |
| Dispatch.SendsToMembers | dispatcherd/PubSubDispatch.cpp:771-850 | a handler is written to iff it is the entry of some listed id |
| Dispatch.NoDoubleSend | dispatcherd/PubSubDispatch.cpp:158-335 | no handler gets two copies of one message |
| Dispatch.SendsToAppend | dispatcherd/PubSubDispatch.cpp:400-551 | handlers are written to in the order in which their ids are listed |
| Dispatch.LocalsBeforeRemotes | dispatcherd/PubSubDispatch.cpp:400-551 | models of this dispatcher come before other dispatchers |
| Dispatch.ProcessRefinesMesh | dispatcherd/PubSubDispatch.cpp:158-335 | the handlers process writes to are exactly those of the models and dispatchers the mesh step names |
| Dispatch.ProcessPrunesMesh | dispatcherd/PubSubDispatch.cpp:400-551 | the models process unsubscribes are exactly the subscriptions the mesh step prunes, and the bit its copies leave with is the one the mesh packets carry |
| Formation.StepKeepsUnique | dispatcherd/DispatcherIdentity.h:88-113 | every step keeps handle number, peer, node and handler unique in each table |
| Formation.StepKeepsHandles | dispatcherd/ConnectionHandler.cpp:264-324 | no two open sockets of a dispatcher share a handle number |
| Formation.HelloMissing | dispatcherd/PubSubDispatch.cpp:124-143 | a HELLO leaves its pair without entry and without anything under way iff it was so before, or the HELLO was the last chance and another node holds its handle number or peer id |
| Formation.LoseHighMissing | dispatcherd/ConnectionHandler.cpp:84-111 | the same for the destruction of an accepted handler, which unbinds by handle number |
| Formation.StepMissing | dispatcherd/ConnectionHandler.cpp:149-209 | for every step: exactly the wasting steps lose a pair, exactly a failure of one of its links or an anneal of the lower end sets it right |
| Formation.MissingIff | dispatcherd/ConnectionHandler.cpp:84-209 | over every run a pair is connected, unbound and without anything under way iff some step wasted it and none since healed it |
| Formation.RunKeepsInv | dispatcherd/EventChannel.cpp:366-405 | every order of anneals, openings, HELLOs and failures noticed at either end keeps shape, unique keys, handle numbers and one connection per annealed pair |
| Formation.TablesStaySound | dispatcherd/EventChannel.cpp:366-405 | connections run from lower to higher dispatchers only; no two entries of a table share any of the four keys; no entry for the dispatcher itself |
| Formation.MeshIsComplete | dispatcherd/PubSubDispatch.cpp:124-143 | without failures, once all have annealed and nothing is under way, every pair is bound in both directions |
| Formation.MeshCompleteIff | dispatcherd/PubSubDispatch.cpp:124-143 | with failures at either end, a settled mesh is complete in both directions iff no pair was wasted without being healed |
| Formation.CarefulOverlooksNothing | dispatcherd/ConnectionHandler.cpp:84-209 | no pair is overlooked, however often connections fail, if each is opened only when the accepting end has let go of its older links and on handle numbers no entry of either end names |
| Formation.CarefulMeshIsComplete | dispatcherd/PubSubDispatch.cpp:124-143 | then a settled mesh is complete in both directions |
| Formation.OneSidedLoss | dispatcherd/ConnectionHandler.cpp:105-111 | a run that settles with both dispatchers annealed and connected and one without an entry for the other, because the connecting end reconnected first |
| Formation.ReusedHandle | dispatcherd/DispatcherIdentity.h:88-95 | a run in which a lost connection's handle number keeps another node out of the table |
| Formation.AnnealedMeshDelivers | dispatcherd/PubSubDispatch.cpp:77-151 | over a mesh formed in any order, with failures but no pair overlooked, every registered subscriber gets every published message exactly once |
| Formation.QuietRunsAreShort | dispatcherd/EventChannel.cpp:366-405 | openings and HELLOs alone: three steps per request and one per HELLO bound every run |
| Formation.Quiesces | dispatcherd/EventChannel.cpp:366-405 | and every such run can be continued until nothing is requested and no HELLO is under way |
| Formation.BindIsTableBind | dispatcherd/PubSubDispatch.cpp:142-143 | binding here is bind of the four-key D2D table |
| Formation.UnbindIsTableUnbind | dispatcherd/ConnectionHandler.cpp:105-111 | unbinding here is unbindCHID of that table |
| Formation.EventChannel.InitiateAll | dispatcherd/EventChannel.cpp:366-405 | one connection per higher dispatcher without a D2D entry, in list order, no others |
| Formation.InitiateAllIsAnneal | dispatcherd/EventChannel.cpp:366-405 | the loop asks for exactly the connections of the anneal step |
| Formation.UnboundOnce | dispatcherd/EventChannel.cpp:366-405 | a dispatcher listed once is asked for at most once |
| Identity.HistoryKeepsUnique | dispatcherd/ModelIdentity.h:106-156 | after any history of binds and unbinds no two records share a unique key |
| Identity.UnbindRemovesOne | dispatcherd/ModelIdentity.cpp:99-199 | an unbind removes the one record under the key and nothing else |
| Identity.MultiIndex.Insert | dispatcherd/ModelIdentity.h:106-130 | bind succeeds iff no unique key is taken, otherwise changes nothing; all indices hold the same records afterwards |
| Identity.MultiIndex.Erase | dispatcherd/ModelIdentity.cpp:99-199 | unbind through any unique key removes the record from every index |
| Identity.MultiIndex.Find | dispatcherd/ModelIdentity.cpp:70-186 | a lookup by any unique key returns the one record with that key, and fails iff there is none |
| Identity.MultiIndex.Group | dispatcherd/ModelIdentity.h:153-156 | the job range is exactly the records of that job |
| Identity.AllRecordsInJob | dispatcherd/ModelIdentity.h:156-156 | on the D2M table: exactly the records of the job |
| Identity.HandlerOfModel | dispatcherd/ModelIdentity.cpp:85-97 | on the D2M table: the handler of the one record of the model, or none |
| Identity.UnbindCHID | dispatcherd/DispatcherIdentity.h:112-112 | on the D2D table: the entry under the handle number goes and nothing else |
| Identity.NewModelTable | dispatcherd/ModelIdentity.h:106-119 | an empty table whose unique keys are chid, mid, pid and handler and whose grouping keys are job, node, unit and stats id |
| Identity.ModelTaken | dispatcherd/ModelIdentity.h:106-119 | a bind into D2M is refused iff some record has the same chid, mid, pid or handler, and for no other reason |
| Identity.BindModel | dispatcherd/ModelIdentity.h:131-131 | bind succeeds iff every record differs in all four, and adds just the record |
| Identity.JobHoldsAllBound | dispatcherd/ModelIdentity.h:156-156 | after any binds of models that differ in those four, the range of a job holds exactly the models of that job, however many |
| Identity.NewDispatcherTable | dispatcherd/DispatcherIdentity.h:88-96 | an empty table whose unique keys are chid, peer, node and handler |
| Identity.ModelLookupsAgree | dispatcherd/ModelIdentity.cpp:70-199 | lookups of one model by model id, channel id, process id or handler agree after any history |
| Identity.OneHandlerPerNode | dispatcherd/DispatcherIdentity.h:88-113 | after any history the D2D table has one handler per node and one node per handler |
| RouteCache.LookupIsResident | dispatcherd/SubscriptionCache.cpp:23-84 | a lookup finds exactly the record of the first bind of the key since its last eviction, and nothing iff there is none |
| RouteCache.ResidentNew | dispatcherd/SubscriptionCache.cpp:23-28 | a bind takes effect iff the key was vacant |
| RouteCache.ResidentKept | dispatcherd/SubscriptionCache.cpp:30-65 | a later operation removes a cached record iff it unbinds its key or its run |
| RouteCache.EndedRunStaysGone | dispatcherd/PeerRouteCache.cpp:37-52 | after a run has ended, whatever followed, a route of that run is found only if it was bound anew since |
| RouteCache.Cache.Insert | dispatcherd/PeerRouteCache.cpp:30-34 | the first bind of a key wins; both indices stay in agreement |
| RouteCache.Cache.UnbindRunID | dispatcherd/SubscriptionCache.cpp:30-45 | all and only records of the run leave both indices |
| RouteCache.Cache.UnbindOne | dispatcherd/SubscriptionCache.cpp:48-65 | only the record of the key leaves both indices |
| RouteCache.Cache.FindRouting | dispatcherd/SubscriptionCache.cpp:68-84 | returns the cached route or none; hits never exceed calls (the 32-bit counters while calls stay below 2^32) |
| RouteCache.FlushRun | dispatcherd/PubSubDispatch.cpp:296-311 | a job-wide GOODBYE_REQUEST leaves no cached route of that run in either cache and keeps the others |
| Handshake.NextKeepsInv | Models/CMD/CMD_Target.cpp:59-86 | every step of either thread, spurious wakeups and ticklast keep mutual exclusion, the flags, whose turn it is and the round counts |
| Handshake.Safety | Models/CMD/CMD_Radar.cpp:68-104 | in every interleaving exactly one flag is set while the mutex is free, critical sections exclude each other and strictly alternate from the first mover, and nobody sleeps on a cleared flag unnotified |
| Handshake.SomeThreadCanMove | Models/CMD/CMD_Radar.cpp:281-306 | deadlock freedom before ticklast |
| Handshake.ActMakesProgress | Models/CMD/CMD_Target.cpp:223-244 | each thread step completes a round or brings one nearer |
| Handshake.RoundsGrow | Models/CMD/CMD_Missile.cpp:106-137 | no livelock: n steps with k spurious wakeups complete at least (n - 2k - 8) / 9 rounds in every interleaving |
| Handshake.DoomedForever | Models/CMD/CMD_Target.cpp:59-86 | a final report that starts before the messaging thread has passed its ticklast test, with the flag set, never ends |
| Handshake.FinalReportIff | Models/CMD/CMD_Target.cpp:223-254 | after ticklast the simulation thread can finish at all iff it is not in that situation |
| Handshake.FinalReportInEveryContinuation | Models/CMD/CMD_Target.cpp:59-86 | and then in every continuation with k spurious wakeups at most 15 + 2k steps lead up to the end of the report, and until it ends one of them can be taken |
| Handshake.FinalReportCanHang | Models/CMD/osk/sim.cpp:88-96 | the situation occurs |
| Handshake.MessagingReturnsIff | Models/CMD/CMD_Missile.cpp:318-347 | once the simulation has returned, the messaging call can return iff it is not waiting past its ticklast test with its flag set |
| Handshake.MessagingCanHang | Models/CMD/CMD_Radar.cpp:281-306 | that waiting occurs without a final report |
| Handshake.TargetNeverStrands | Models/CMD/CMD_Target.cpp:59-86 | with the final report the messaging thread is never left waiting |
| FrameQueue.Top | Peer/SharedAppMgr.cpp:588-599 | the top has the highest priority in the queue |
| FrameQueue.DrainConserves | Peer/SharedAppMgr.cpp:586-600 | a drain hands over every queued event exactly once |
| FrameQueue.DrainIsOrdered | Peer/SharedAppMgr.cpp:586-600 | in non-increasing priority order |
| FrameQueue.RunConserves | Peer/SharedAppMgr.cpp:550-602 | for every run and every answer pattern, events offered are events handed over plus events queued |
| FrameQueue.OneCall | Peer/SharedAppMgr.cpp:550-602 | one call in full: an event that is not data, is control or meets a ready application is handed over first; then, if the application is ready, everything queued, in non-increasing priority order; otherwise nothing more, and the rest stays queued in order of arrival |
| FrameQueue.EveryCallByPriority | Peer/SharedAppMgr.cpp:550-602 | the same order in every call of every run |
| FrameQueue.HandedOnlyWhenReady | Peer/SharedAppMgr.cpp:558-600 | in every run a non-control data event is handed over only if the application answered ready on its arrival or at the end of that or a later call |
| FrameQueue.QueueIsUnready | Peer/SharedAppMgr.cpp:558-600 | after any run the queue holds exactly the gated events that met not-ready since the last ready answer at the end of a call, in order of arrival |
| FrameQueue.HandoffNeedsReady | Peer/SharedAppMgr.cpp:558-600 | each hand-over of a gated event goes with a ready answer on arrival or at the start of its drain |
| FrameQueue.SharedAppMgr.HandleEvent | Peer/SharedAppMgr.cpp:550-602 | the object does the modelled call, which OneCall describes in full |
| FrameQueue.SharedAppMgr.Drain | Peer/SharedAppMgr.cpp:586-600 | the loop empties the queue in drain order |
| Tater.RingIsOneCycle | Models/FramedTater/FramedTater.cpp:113-118 | for every n the subscriptions form one n-cycle |
| Tater.StepKeepsInv | Models/FramedTater/FramedTater.cpp:29-84 | what each unit sent is what its listener received plus what is under way |
| Tater.RingConserves | Models/FramedTater/FramedTater.cpp:29-84 | launches are returns plus taters in flight, callback counts fall along the ring, and the first end-case is sent exactly at the max_passes-th return |
| Tater.QuietRing | Models/FramedTater/FramedTater.cpp:29-84 | with nothing in flight every unit has seen every tater |
| Tater.RingOfUnits | Models/FramedTater/FramedTater.cpp:29-84 | a step of the ring changes only the acting unit, as its callback does |
| Tater.FramedTater.PassTheTater | Models/FramedTater/FramedTater.cpp:29-64 | unit 1 ends the case from the max_passes-th callback on and never passes; every other unit always passes |
| Tater.FramedTater.MonteCarloStep | Models/FramedTater/FramedTater.cpp:67-84 | only unit 1 launches |
| Stats.SpreadExpands | dispatcherd/RouterStats.cpp:185-224 | the sum of squared deviations from any m in terms of the running sums |
| Stats.VarianceIsSound | dispatcherd/RouterStats.cpp:206-224 | n*sum(x^2) - (sum x)^2 is non-negative and the value under the root is the sample variance around the mean |
| Stats.RouteTimeStats.Sample | dispatcherd/RouterStats.cpp:185-203 | the running sums, count, minimum and maximum describe the samples so far (extremes without the first one) |
| Stats.RouteTimeStats.Compute | dispatcherd/RouterStats.cpp:206-224 | mean and variance of all samples for n > 2, zero otherwise; extremes of all samples but the first |
| Stats.ExtremesIff | dispatcherd/RouterStats.cpp:185-203 | the kept extremes are those of all samples iff the first sample does not lie outside them |
| Stats.FirstSampleIsMissed | dispatcherd/RouterStats.cpp:185-203 | samples of which the kept minimum, and others of which the kept maximum, is not that of all |
| Stats.RouteByteStats.Sample | dispatcherd/RouterStats.cpp:39-49 | the ring holds the last 20 sizes, each one place older |
| Stats.RouteByteStats.LastMessages | dispatcherd/RouterStats.cpp:146-158 | the report lists them newest first |
| Reconnect.DelayWithoutWrap | dispatcherd/ConnectionHandler.cpp:545-555 | below 2^31 the k-th delay since a reset is min(2^k, max) |
| Reconnect.CollapsedBackoff | dispatcherd/ConnectionHandler.cpp:545-555 | at or above 2^31 the delay is 0 from the 32nd on |
| Reconnect.BackoffIff | dispatcherd/ConnectionHandler.cpp:545-555 | the doubling is min(2^k, max) for all k iff max < 2^31 |
| Reconnect.DelaysFollowBackoff | dispatcherd/ConnectionHandler.cpp:545-601 | in every life of a handler each attempt waits min(2^k, max), k counted since the last reset |
| Reconnect.RetryDelay | dispatcherd/ConnectionHandler.cpp:545-601 | whatever happened before, the m-th failure after a connect, a status report or a restart by id waits min(2^(m-1), max) |
| Reconnect.BacksOffIff | dispatcherd/ConnectionHandler.cpp:545-601 | that holds in every life iff 1 <= max < 2^31 |
| Reconnect.LivesOn | dispatcherd/ConnectionHandler.cpp:149-209 | an active handler is never destroyed as long as no GOODBYE is processed |
| Reconnect.DestroyedIff | dispatcherd/ConnectionHandler.cpp:149-209 | in every history a passive handler is destroyed iff its connection closed, an active one iff a GOODBYE was processed |
| Reconnect.PhaseAfter | dispatcherd/ConnectionHandler.cpp:149-209 | established after an opening, failed after a close it will reconnect from, disconnecting once let go; a status report leaves it |
| Reconnect.NoMoreAttempts | dispatcherd/ConnectionHandler.cpp:149-209 | a passive, commanded or destroyed handler schedules no attempt in any continuation |
| Reconnect.GoodbyeIsFinal | dispatcherd/PubSubDispatch.cpp:215-228 | after a GOODBYE no attempt is ever scheduled |
| Reconnect.ConnectionHandler.NextTimeout | dispatcherd/ConnectionHandler.cpp:545-555 | returns the old delay and doubles it in 32 bits, clamped |
| Reconnect.ConnectionHandler.SetTimeout | dispatcherd/ConnectionHandler.inl:96-101 | clamps to the maximum |
| Reconnect.ConnectionHandler.HandleClose | dispatcherd/ConnectionHandler.cpp:149-209 | an active handler not told to close fails and reconnects; any other is destroyed |
| Reconnect.ConnectionHandler.On | dispatcherd/ConnectionHandler.cpp:264-324 | the object follows the life cycle on every event |
| Pdu.FixedPart | Models/DIS/pdu_packed.h:135-206 | the fixed part is 144 bytes in 71 fields; FieldPlaces says which lies where |
| Pdu.LayoutSizes | Models/DIS/pdu_packed.h:135-208 | with p parameters the layout is 144 + 16 p bytes and parameter j starts at 144 + 16 j |
| Pdu.FieldPlaces | Models/DIS/pdu_packed.h:135-208 | byte and width of every field by name, independent of the size lists: time stamp 4 at 4, length 2 at 8, ids at 12, types at 20 and 28, velocity 4-byte at 36, location 8-byte at 48, orientation at 72, appearance at 84, dead reckoning at 88, accelerations at 104 and 116, marking at 129, capabilities at 140, and the five fields of each parameter |
| Pdu.WrittenAt | Models/DIS/pdu_packed.h:46-51 | an assignment puts the reversed host bytes at the place of the field and leaves every other byte |
| Pdu.LayoutFitsBuffer | Models/DIS/pdu_packed.h:19-20 | with 78 parameters it fits the 1500-byte buffer |
| Pdu.FieldsAreDisjoint | Models/DIS/pdu_packed.h:26-35 | offsets are contiguous and fields disjoint |
| Pdu.OneFieldPerByte | Models/DIS/pdu_packed.h:26-35 | every byte of the layout belongs to exactly one field |
| Pdu.ReadAfterWrite | Models/DIS/pdu_packed.h:36-51 | a field reads back what was assigned and no other field changes |
| Pdu.ReadsAreLastWrites | Models/DIS/pdu_packed.h:36-51 | after any sequence of assignments a field reads as its last assigned value, or as before if never assigned |
| Pdu.NetworkOrder | Models/DIS/pdu_packed.h:46-51 | the reversed bytes are the number most significant byte first |
| Pdu.NumberRoundTrip | Models/DIS/pdu_packed.h:36-51 | an assigned number is on the wire in network order and reads back, modulo the field's width |
| Pdu.SizeFollowsCount | Models/DIS/pdu_packed.h:169-177 | size is 144 + 16 n for the last assigned count n; inside the layout iff n <= 78, inside the buffer iff n <= 84 |
| Pdu.TransferCarriesAnnounced | Models/DIS/pdu_packed.h:96-107 | reloading a PDU from another's announced bytes carries the fixed fields and exactly the announced parameters |
| Pdu.Packed.constructor | Models/DIS/pdu_packed.h:26-35 | fields are placed at the layout's offsets in declaration order |
| Pdu.Packed.Assign | Models/DIS/pdu_packed.h:46-51 | the buffer changes as the field write says |
| Pdu.Packed.Value | Models/DIS/pdu_packed.h:36-45 | the value read is the field's |
| Pdu.Packed.ReloadFrom | Models/DIS/pdu_packed.h:96-107 | the leading bytes are replaced, the others kept |
| Pdu.Packed.Length | Models/DIS/pdu_packed.h:169-177 | the announced size follows the stored count |
| Pdu.NewEntityState | Models/DIS/pdu_packed.h:178-182 | a new PDU has type 1 and size 144 |

## Left out

- Fifo.DeliveredIsPrefix: runs contain no fatal send, no refused re-queue of a partly sent block, no header-stage recv that would block and no put in the middle of a wakeup; the if-and-only-if lemmas listed above say what happens otherwise.
- Fifo.Conservation: same restriction; a message refused before any of its bytes moved is included.
- Transmit.TransmitHandler.Output: the object runs in one thread; threads are in the module Race.
- Race.OrderKeptIff: messages of puts that overlap in time are ordered by their tests of the queue, which is one order among several the source could have promised; Race.IntactIff does not depend on it. Runs leave out refused puts, which have no effect, fatal sends, and remainders refused at the head of the queue.
- Mesh.ExactlyOnce: tables and subscriptions stay fixed during the run apart from the unsubscriptions routing itself makes; under arbitrary changes `Mesh.AtMostOnce` holds.
- Mesh.CompleteMeshDelivers: a D2D entry is taken to carry its messages; an entry whose connection is down at that moment loses them.
- Formation.MeshIsComplete: for runs without failures; with failures it is false of the code, and Formation.MeshCompleteIff gives the exact condition. Restarted dispatcher processes are not modelled.
- Dispatch.ProcessRefinesMesh: the answers of the database are assumed duplicate-free and right for the shared relation; stale answers of the route caches are in Views, for point-to-point routing.
- Dispatch.PubSubDispatch.Process: the control messages handled before routing, output filters and the ROUTE debug flag are not modelled.
- Receive.ReceiveHandler.RecvHeader: input filters, CRC comparison (only logged by the source), the receiver without headers and the memory in front of the header buffer are not modelled.
- Handshake.Safety: integration and the coordinates exchanged happen outside the lock and are not modelled; an early stop of CMD_Missile appears as its simulation thread staying outside the handshake.
- FrameQueue.SharedAppMgr.Drain: events of equal priority leave in queue order here, the source's heap leaves their order open; hand-over code that re-enters the manager is not modelled.
- Identity.MultiIndex.Group: the range is a set, its iteration order is not modelled; the index by name behaves like the other grouping indices and is not repeated.
- RouteCache.LookupIsResident: the vectors stored as routes are opaque values.
- Stats.RouteTimeStats.Compute: the value under the square root is modelled, the root and rounding are not.
- Stats.RouteByteStats.Sample: inter-arrival times, which depend on a flag shared by all instances, are not modelled.
- Reconnect.ConnectionHandler.On: timers firing and the asynchronous connector are seen only through their next event.
- Pdu.NumberRoundTrip: unsigned integers; signed and floating fields are covered as byte sequences by Pdu.ReadsAreLastWrites.
- Message-block reference counts and pointer lifetime: messages are values; aliasing is modelled only for queued blocks.
- The command parser, XML reports, connection records, acceptors, service loading, logging, the database itself, the GUI and the trajectory mathematics of the models.
- The bounded send and receive histories, filter reference counts and log counters: they would add only easy members.
