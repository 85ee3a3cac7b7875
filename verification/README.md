# Ping-Pong file relay: a verified model

A sender registers a file under a code phrase with a server. A receiver that knows the phrase claims
it, the server relays the file to the receiver in chunks that carry their SHA-256 digests, the
receiver confirms, and the server tells the sender `Success`. This project models that system in
Dafny, from the byte stack in a message body up to whole runs with any number of clients, and proves
when the promise holds: **if the connection that confirmed a transfer follows the receiver program, its
disk holds the sender's file, byte for byte, if and only if that disk takes every chunk**
(`EndToEnd.ConfirmedMeansDelivered`). A program of its own that knows the phrase may confirm what it
likes, and the receiver program itself confirms a file that its disk refused.

`dafny verify dfyconfig.toml` checks everything.

## How the layers fit

| layer | files | what it gives the next layer |
|---|---|---|
| bytes and codec | `Bytes`, `NetMessage`, `Codec`, `Layout` | every struct is popped back from the bytes that were pushed, and where each field stands in them |
| framing | `Framing` | any prefix of a byte stream yields exactly the messages whose frames are complete |
| write pump | `WritePump`, `Flush`, `Closing`, `Connection` | the bytes written are the frames in posting order, over every interleaving; when a flush returns, and that a close that was asked for happens |
| channel | `Link`, `Channel` | a connection is a first-in first-out channel: every step of a thread, and every byte that arrives, moves it by sends, takes and closings |
| queue | `TsQueue` | one consumer that tests `empty` and then pops gets everything once, in order |
| server | `Server`, `FileServer`, `ServerProofs`, `Isolation`, `CloseOrder`, `SessionEnd` | the four maps stay chained and paired, streams are isolated, confirmations conserved, and sent before the close; whoever is forgotten is told to close, and does |
| client sessions | `Session`, `Disk`, `Integrity`, `SessionLoops` | chunking and reassembly are inverse on every prefix of the stream, on any disk; of any other stream nothing is written that is not under its own digest |
| whole relay | `Relay`, `RelayInvariant`, `RelayServer`, `RelaySafety`, `RelayRuns`, `RelayChannels` | an invariant of every reachable state; its channels move by the same steps as the connections |
| promises | `EndToEnd`, `Replies`, `ReplyLoops`, `Transfers`, `Waiting` | the end-to-end theorems, what a receiver does about each answer, runs that show they are not vacuous, and the senders that wait for ever |
| the relay on real connections | `Wired` | with a write pump, arriving bytes and a queue of read messages under every channel, each run is a run of the relay |
| discovery, phrases | `Subnet`, `Phrase` | subnet arithmetic, the host scan, and injective phrases |

Code that updates objects in place is modelled by classes whose methods are proved against functions
on values (`NetMessage.MessageBuffer`, `Framing.FrameReader`, `Connections.Connection`,
`TsQueue.TSQueue`, `FileServers.ClientStorage`, `FileServers.FileServer`); the loops of the two client
sessions, of the dispatcher, of the scan and of the phrase generator are `while` loops. The theorems
are lemmas about the functions.

Concurrency is modelled by steps. In `WritePump` an action is one step of a user thread (the test, the
counter and the post of `send` are three of them) or of the I/O thread (the pop, the decrement and the
rest of a completion handler are three of them), in any order the code allows. In `Relay` an action is
one step of one client or one handled message of the server; connections close at any time, and clients
that follow neither program (`Rogue`) send whatever the server can decode. Claims and confirmations are
history variables of that model. `Channel.StepMovesLink` and `Channel.ByteMovesLink` show that a
connection, seen as what was sent and how much of it was read, moves by the steps of `Links.LinkStep`;
`RelayChannels.StepMovesLinks` shows that the channels of the relay move by the same ones. `WiredRelay`
puts the two together: there a program's send is the post of a write pump that found its connection open,
a message is taken only after its bytes have arrived, and all threads and bytes interleave.
`WiredRelay.WiredRefines` shows that every such run is a run of the relay, so the end-to-end theorems hold
of it.

SHA-256 is an arbitrary function from bytes to 32 bytes and the handshake's `obfuscate` an arbitrary
function on 64-bit numbers: nothing is assumed of either. Random draws, the moments at which queues are
looked at, disk failures, the user's answer and uninitialised fields are arguments or choices of a step.

## What turned out not to hold

* `removeSessionAbruptly` sends `Abort` only to the sink of the session, although the comments at
  `server.cpp:300-302` and `318` say the sender gets one too. The model follows the code. A consequence
  is `EndToEnd.SenderNeverMisled`: a sender that follows its program never sees an `Abort`.
* The receiving loop returns true when its output stream goes bad, so the receiver confirms a file it
  could not write and the sender is told `Success`. The exact condition is that the receiver's disk takes
  as many writes as the file has chunks: a confirmed receiver holds the file if and only if it does
  (`EndToEnd.ConfirmedMeansDelivered`, `Disks.WholeFileIffDiskHolds`), and for every file and every smaller
  disk there is a confirmed run that lost part of the file (`Transfers.BrokenDiskIsConfirmed`). What is on
  the disk is a prefix of the file in every case.
* `waitForConfirmation` leaves its loop only for an `Abort`, which no sender is ever sent, or a `Success`.
  It does not look at the connection. A sender whose connection is closed or which the server has
  forgotten, with no `Success` unread, is never confirmed and, once it waits, waits for ever
  (`Waiting.LostForEver`). For every file there is such a run: the receiver claims the code and then cannot
  open its output (`Waiting.EverySenderCanBeStranded`). A `Success` that arrives while the chunk loop still
  runs is skipped by it, and that sender is lost as well (`Waiting.SkippedSuccess`). The server can still
  confirm a sender, without its doing anything, if and only if the sender is pending under its code and is
  not its own recorded receiver (`Waiting.ConfirmationPossible`).
* A connection that claims a second sender while it is recorded as a receiver makes sessions and pairs
  disagree (`ServerProofs.DoubleClaimBreaksPairing`, and `ServerProofs.AnyTwoCodesBreakPairing` for any two
  codes); `ServerProofs.PairingExact` shows that nothing else does. The streams stay apart even so
  (`Isolations.IsolatedRun`).
* The `Reject` of a `Send` at `server.cpp:173-180` is dead code: a client with a session never reaches that
  handler (`Server.SendNeverRejected`).
* A message of 2^32 bytes or more does not survive framing (`Framing.FrameRoundTrip` is an equivalence),
  nor a string whose size byte is not its length (`Codec.PhraseRoundTrip`, `Codec.FileRoundTrip`).
* After a failed write `waitForOutgoingQueueEmpty` never returns (`Flushes.NeverFlushedAgain`). On a socket
  that is closed, for whatever reason, it can still return if and only if everything posted is on the
  wire and the last completion is not lost (`Flushes.FlushAfterClose`).
* With a /31 or /32 mask the scan probes the network address although there is no usable host
  (`Subnet.ScanOfTinySubnet`), and with a /32 mask on 255.255.255.255 its counter wraps for ever
  (`Subnet.ScanEndsExactly` is an equivalence). With a mask that has a hole, the range between network
  and broadcast is not the subnet (`Subnet.RangeIsSubnetIffContiguous` is an equivalence).
* Phrases of 19 or more words can exceed the size byte (`Phrases.EighteenWords` is an equivalence). The
  sender uses two words.

## Model

| member | source | states |
|---|---|---|
| EndToEnd.ConfirmedMeansDelivered | filetransmission/ppclient/src/sender.cpp:96-146 | in every reachable state, if `sendRoutine` returned true then the connection that confirmed is known; if it follows the receiver program its claim reached this sender under this sender's code, it ran to its end, its disk holds a prefix of the file, and the whole file, after `FinalChunk`, if and only if the disk takes as many writes as the file has chunks |
| EndToEnd.ReceiverHoldsPrefix | filetransmission/ppcommon/include/ppcommon/session.hpp:60-128 | in every reachable state, with channels closing and disks failing at any point, the bytes on the disk are a prefix of the claimed sender's file; once the loop ended well they are the file if and only if the disk takes as many writes as the file has chunks |
| EndToEnd.UnclaimedWritesNothing | filetransmission/ppserver/src/server.cpp:227-235 | a receiver whose claim reached no sender has written nothing |
| EndToEnd.SenderNeverMisled | filetransmission/ppclient/src/sender.cpp:59-79 | a sender only ever gets Accepts that announce the server's chunk size and Successes, never goes on without an Accept, sends a prefix of its script, and stops early or returns false only if its connection closed |
| EndToEnd.NothingMalformed | filetransmission/ppcommon/include/ppcommon/session.hpp:93-110 | given that rogues send only what the server can decode, in every reachable state the server can decode the next message of every connection; and every chunk sent to a client, whoever sent it, holds a digest |
| EndToEnd.StreamDelivers | filetransmission/ppcommon/include/ppcommon/session.hpp:79-123 | from any prefix of a sender's content, possibly cut off by an Abort, a receiver makes a prefix of the file in whole chunks, and finishes only with all of it |
| RelayRuns.StepKeepsInv | filetransmission/ppserver/src/server.cpp:325-370 | every step of a client, of the server, of the network or of a rogue keeps the invariant of the relay |
| RelayRuns.ReachableInv | filetransmission/ppserver/src/server.cpp:325-370 | the invariant holds in every state of every run |
| RelayRuns.HandleGrows | filetransmission/ppserver/src/server.cpp:325-370 | handling a message of one connection brings no other connection into the maps, as a sender, a sink or a receiver |
| RelaySafety.OwnSenderAfter | filetransmission/ppserver/src/server.cpp:165-184 | handling a sender's own next message sends that sender nothing, leaves it no sink or receiver, and leaves it pending, once it was answered, only while its session stands |
| RelaySafety.OwnReceiverAfter | filetransmission/ppserver/src/server.cpp:219-273 | what handling a receiver's own next message does to it: it is sink and recorded receiver only for the sender it claimed |
| Transfers.EveryFileCanBeDelivered | filetransmission/ppclient/src/receiver.cpp:94-130 | for every file, phrase and hash there is a run that ends with the sender confirmed and the receiver holding the file |
| Transfers.EveryFileCanBeConfirmed | filetransmission/ppclient/src/receiver.cpp:94-130 | for every file, phrase, hash and disk there is a run that ends with sender and receiver both confirmed, and the file is then on the disk if and only if the disk takes as many writes as the file has chunks |
| Transfers.BrokenDiskIsConfirmed | filetransmission/ppcommon/include/ppcommon/session.hpp:79-127 | for every file and every disk that takes fewer writes than the file has chunks, a run in which the sender is confirmed and the disk does not hold the file |
| Waiting.LostForEver | filetransmission/ppclient/src/sender.cpp:96-124 | a sender past its Accept with no Success unread, whose server end is closed or which the server handled and forgot, is not confirmed in any continuation of any run, and if it waits for the confirmation it does so in every later state |
| Waiting.SkippedSuccess | filetransmission/ppcommon/include/ppcommon/session.hpp:165-178 | a Success taken by the chunk loop changes nothing but the queue, and leaves the sender in that state |
| Waiting.EverySenderCanBeStranded | filetransmission/ppclient/src/sender.cpp:96-124 | for every file, phrase and hash there is a run that ends with the sender waiting in that state |
| Waiting.ConfirmationPossible | filetransmission/ppserver/src/server.cpp:256-273 | in a chained storage, some events of other connections bring a sender a Success if and only if it is pending under its code and not recorded as its own receiver |
| WiredRelay.WiredRefines | net_common/include/net_common/net_connection.hpp:114-349 | in every run over write pumps, bytes and read queues, the channels are what the pumps posted and no program took more than was read, and the programs are in a reachable state of the relay |
| WiredRelay.ProgramsTakeWhatWasRead | net_common/include/net_common/net_connection.hpp:339-349 | in every such run what was read from the bytes is a prefix of what the other program sent, and what the program took is a prefix of that |
| WiredRelay.ConfirmedOnWires | filetransmission/ppclient/src/sender.cpp:96-146 | the end-to-end theorem on real connections: in every such run a confirmed sender's file is on the disk of a confirming receiver if and only if the disk takes every chunk |
| Replies.ReplyComesFirst | filetransmission/ppserver/src/server.cpp:186-254 | in every reachable state the first message a receiver was sent is a Reject or an Accept with the server's chunk size, all others are transfer messages, and it goes on only after that first one |
| Replies.RejectedStops | filetransmission/ppclient/src/receiver.cpp:44-62 | in every reachable state a receiver that took a Reject has failed, has sent its request and nothing else, and has written nothing |
| Replies.AcceptedGoesOn | filetransmission/ppclient/src/receiver.cpp:44-130 | one that took an Accept is past its reply; it fails only if its output does not open, which it reports while it can, or at an Abort or a chunk under a wrong digest that comes before any final chunk |
| Replies.RejectedIffUnknown | filetransmission/ppserver/src/server.cpp:186-217 | when the server handles a receiver's request, the receiver is sent exactly one message, and it is a Reject if and only if no sender holds the code at that moment |
| Replies.BadStops | filetransmission/ppcommon/include/ppcommon/session.hpp:84-127 | in every reachable state, whoever sent the messages, a receiver that took an Abort or a chunk under a wrong digest before any final chunk has failed |
| Replies.NothingUnverified | filetransmission/ppcommon/include/ppcommon/session.hpp:93-111 | in every reachable state a receiver's disk holds only data that it took in chunks that end in their own digest |
| ReplyLoops.SenderEstablishes | filetransmission/ppclient/src/sender.cpp:59-78 | the first Reject or Accept in the queue decides, the Accept brings the chunk size, and without either the sender goes on with the size it had |
| ReplyLoops.ReceiverEstablishes | filetransmission/ppclient/src/receiver.cpp:44-62 | it fails if and only if the first Reject or Accept in the queue is a Reject |
| ReplyLoops.WaitForConfirmation | filetransmission/ppclient/src/sender.cpp:96-124 | however the messages are batched, the wait ends exactly at the first Abort or Success, and returns whether that is a Success |
| ReplyLoops.TakesReply | filetransmission/ppclient/src/sender.cpp:61-76 | a sender of the relay that waits for its reply takes messages to the same end as that loop |
| ReplyLoops.TakesInLoop | filetransmission/ppcommon/include/ppcommon/session.hpp:165-178 | in its chunk loop it ends at the first Abort and loses all other messages |
| ReplyLoops.TakesConfirmation | filetransmission/ppclient/src/sender.cpp:107-120 | waiting for the confirmation it takes messages to the same end as `waitForConfirmation` |
| ReplyLoops.ReceiverTakesReply | filetransmission/ppclient/src/receiver.cpp:46-60 | a receiver of the relay takes its reply to the same end as the loop of `receiver.cpp` |
| ReplyLoops.GoesOnWithoutReply | filetransmission/ppclient/src/receiver.cpp:46-62 | a queue found empty before a Reject or an Accept lets both programs go on |
| ReplyLoops.LoopIsMainLoop | filetransmission/ppcommon/include/ppcommon/session.hpp:147-223 | the chunk loop of the relay, run to its end, sends on an open connection every chunk, in as many turns as the session's loop looks into its queue |
| ReplyLoops.ClosedLoop | filetransmission/ppcommon/include/ppcommon/session.hpp:185-206 | on a closed connection it fails at the first chunk, and goes well only if there is none |
| ReplyLoops.AfterLoop | filetransmission/ppclient/src/sender.cpp:81-146 | after the loop the final chunk is sent, and the sender waits for its confirmation if the loop went well and returns false if it did not |
| SessionEnds.ClosesWhomItForgets | filetransmission/ppserver/src/server.cpp:256-289 | in a chained storage a handler tells exactly those senders to close that leave the storage, never more than one, and so every sender whose session it ends |
| SessionEnds.EventCloses | filetransmission/ppserver/src/server.cpp:115-163 | the same for disconnections, where the client itself is told in any case |
| SessionEnds.EndIsTold | filetransmission/ppserver/src/server.cpp:256-289 | the handler that ends a session sends one message, if its addressee can be reached, and no other: the Success to the sender, if the receiver recorded for it reports the end, and otherwise an Abort to the sink |
| SessionEnds.EndedIsTold | filetransmission/ppserver/src/server.cpp:115-120 | over every run, a sender whose session is over has been told to close |
| SessionEnds.EndedIsClosed | net_common/include/net_common/net_connection.hpp:86-97 | and once the threads of its connection have nothing left to do, its socket is closed |
| Server.HolderWithoutContext | filetransmission/ppserver/src/server.cpp:199-243 | in a storage where a code has a holder without a context, which no run reaches, a request is rejected and a claim ends all that is known of the holder |
| Server.HandleChained | filetransmission/ppserver/src/server.cpp:325-370 | every message from any client keeps the chain: recorded pairs have sessions, sessions have phrases, phrases have contexts with the same code, both bimaps are one-to-one |
| Server.StorageChain | filetransmission/ppserver/src/server.cpp:29-133 | the chain holds after every run of the server, disconnections included |
| Server.DropChained | filetransmission/ppserver/src/server.cpp:262-268 | removing a sender takes it out of all four maps and keeps the chain |
| Server.MissingBranchesUnreachable | filetransmission/ppserver/src/server.cpp:165-254 | in a chained storage a request is rejected, and a claim aborted, exactly when its code is unknown; otherwise the asking client, or at every claim the holder of the code, is sent exactly the Accept with what the holder registered; no claim removes a session and no Send is refused |
| Server.InsertValid | filetransmission/ppserver/src/server.cpp:40-41 | an insert into a bimap, which does nothing when either side is present, keeps it one-to-one |
| ServerProofs.CodeStays | filetransmission/ppserver/src/server.cpp:32-69 | for every event, a code still resolves to its holder afterwards if and only if the event is none of: the holder disconnects; in a session it sends anything but a final chunk or a chunk that is relayed; without one it registers another code; its recorded receiver reports that it finished or failed |
| ServerProofs.CodeKept | filetransmission/ppserver/src/server.cpp:325-370 | over every event sequence, a code resolves to its holder all along if and only if none of these events happens in it |
| ServerProofs.TakenCodeIsNotRecorded | filetransmission/ppserver/src/server.cpp:38-47 | a Send always replaces the context by its own metadata, and records the phrase exactly when no other sender holds the code |
| ServerProofs.PairingExact | filetransmission/ppserver/src/server.cpp:115-126 | a message keeps sessions and recorded pairs equal if and only if it is not a claim of a free sender by a connection already recorded as a receiver |
| ServerProofs.PairingAgreement | filetransmission/ppserver/src/server.cpp:219-254 | after every run without such claims, sessions and pairs have the same senders, each sink is the recorded receiver, and no connection is the sink of two sessions |
| ServerProofs.LateClaimChangesNothing | filetransmission/ppserver/src/server.cpp:122-126 | a later claim of a code whose sender has a session leaves the storage as it is |
| ServerProofs.DoubleClaimBreaksPairing | filetransmission/ppserver/src/server.cpp:124-125 | the run of two senders and one connection that claims both, after which sessions and pairs differ |
| ServerProofs.AnyTwoCodesBreakPairing | filetransmission/ppserver/src/server.cpp:124-125 | any two different codes make such a run, with the messages that the programs send |
| Isolations.IsolatedRun | filetransmission/ppserver/src/server.cpp:219-323 | over every whole run in which a receiver claims once, whatever all other connections do: it is sent no transfer message before its claim, then exactly what the sender it reached relays while the session stands, then an Abort exactly in the cases of `Isolation`; if it reached nobody, only the refusal of an unknown code |
| Isolations.Isolation | filetransmission/ppserver/src/server.cpp:275-323 | from any storage in which a receiver is the sink of one sender only, and over any events in which it claims no more, the transfer messages sent to it are exactly the chunks and final chunks its sender sent while the session stood, in order, and then an Abort if and only if the session ended, the receiver could be reached, and the end was neither the sender's disconnection nor the report of another connection that the transfer is finished |
| Isolations.SinkStep | filetransmission/ppserver/src/server.cpp:291-323 | one message or disconnection, of any connection in any storage, seen from the only sink of a sender: a relayed message, nothing, or the end of its session, with an Abort exactly as above |
| ServerProofs.SuccessCause | filetransmission/ppserver/src/server.cpp:256-273 | a Success is sent to a client exactly when its recorded receiver, in no session of its own, sends FinishReceive, and then the client is in none of the four maps |
| ServerProofs.Conservation | filetransmission/ppserver/src/server.cpp:165-184 | over every run the Successes sent to a client plus its pending transmission are at most the Sends handled from it |
| ServerProofs.FilterExact | filetransmission/ppserver/src/server.cpp:306-311 | because the unsigned subtraction wraps, the filter passes exactly the bodies of 32 to 32 + 512 bytes |
| ServerProofs.RelayedChunksDecode | filetransmission/ppserver/src/server.cpp:303-317 | every chunk the server sends to anyone has room for a digest and can be taken apart |
| FileServers.ClientStorage.RemovePendingSender | filetransmission/ppserver/src/server.cpp:32-36 | the sender leaves phrases and contexts; the other two maps stay |
| FileServers.ClientStorage.AddPendingSender | filetransmission/ppserver/src/server.cpp:38-47 | phrase and context are each inserted unless present, so the one may fail without the other |
| FileServers.ClientStorage.RemoveSession | filetransmission/ppserver/src/server.cpp:117-118 | the sender leaves sessions and pairs; the other two maps stay |
| FileServers.FileServer.RemoveSession | filetransmission/ppserver/src/server.cpp:115-120 | the storage forgets the session, and then its sender is told to close after flushing |
| FileServers.ClientStorage.AddSession | filetransmission/ppserver/src/server.cpp:122-126 | pair and session are each inserted unless present |
| FileServers.FileServer.OnClientDisconnect | filetransmission/ppserver/src/server.cpp:158-163 | the in-place handler has the effect of the event `Gone` |
| FileServers.FileServer.OnSendEstablishment | filetransmission/ppserver/src/server.cpp:165-184 | the in-place handler, decoding included, refines `OnSend` on the storage and on the ordered log of sends and closings |
| FileServers.FileServer.OnReceiveEstablishment | filetransmission/ppserver/src/server.cpp:186-217 | it refines `OnRequestReceive` and changes no storage |
| FileServers.FileServer.EstablishTransmissionSession | filetransmission/ppserver/src/server.cpp:219-254 | it refines `OnReceive` |
| FileServers.FileServer.FinishSession | filetransmission/ppserver/src/server.cpp:256-273 | it refines `OnFinish`; in the ordered log Success stands before the closing of the same connection |
| FileServers.FileServer.RemoveSessionAbruptly | filetransmission/ppserver/src/server.cpp:275-289 | it refines `RemoveAbruptly`: only the sink gets an Abort |
| FileServers.FileServer.SessionOnMessage | filetransmission/ppcommon/include/ppcommon/session.hpp:258-274 | the three kinds of transfer message are offered to the sink, anything else is refused |
| FileServers.FileServer.OnSessionedMessage | filetransmission/ppserver/src/server.cpp:291-323 | it refines `OnSessioned`: final chunks pass, chunks pass if the size and the sink allow, all else ends the session |
| FileServers.FileServer.OnMessage | filetransmission/ppserver/src/server.cpp:325-370 | it refines `Handle`, the function that all theorems about the server are about |
| FileServers.FileServer.Update | net_common/include/net_common/net_server.hpp:128-140 | with messages arriving and connections opening and closing before every test of the queue, it handles at most `max_messages` in the order of arrival, each under the connections open then, leaves the rest queued, and ends where the run of those events ends |
| FileServers.FileServer.Arrive | tsqueue/include/tsqueue/tsqueue.hpp:63-70 | the I/O thread's pushes append to the queue that the loop pops |
| FileServers.AppendEvent | net_common/include/net_common/net_server.hpp:134-139 | handling one more message is one more event of the run, for the storage, the sends and the ordered log |
| Server.EffectsHoldPosts | filetransmission/ppserver/src/server.cpp:325-370 | the messages among the ordered effects of a run are the messages that the theorems about its sends speak of |
| CloseOrder.SuccessThenClose | filetransmission/ppserver/src/server.cpp:262-267 | whenever a Success is sent, the handler does exactly two things to connections: it sends it, and then tells the same connection to close after flushing |
| CloseOrder.RejectThenClose | filetransmission/ppserver/src/server.cpp:173-180 | in the branch for a client with a session, which is dead, the Reject of a Send precedes the closing |
| Server.SendNeverRejected | filetransmission/ppserver/src/server.cpp:173-180 | in any storage whatever, a Send is answered with nothing or with an Abort that ends a session: the Reject is dead code |
| CloseOrder.RunFollows | net_common/include/net_common/net_connection.hpp:86-136 | in every run of a connection, what was posted and when the first close was asked for are those of the calls made to it, in order |
| CloseOrder.ClosedAfterSuccess | filetransmission/ppserver/src/server.cpp:256-273 | if a run of the server sends a client a Success and had not told it to close before, then a socket of that client that closed and did not break has that Success, and all sent before it, on the wire in full, and a peer that all its bytes reached has read them |
| CloseOrder.NotToldYet | filetransmission/ppserver/src/server.cpp:256-289 | a client that sends its metadata at most once, stays connected and is still pending has never been told to close |
| CloseOrder.SenderHearsSuccess | filetransmission/ppserver/src/server.cpp:256-273 | so from the start of the server on the promise of `ClosedAfterSuccess` holds for every sender that follows its program, without a premise about earlier closings |
| Sessions.OneMessagePerChunk | filetransmission/ppcommon/include/ppcommon/session.hpp:192-199 | each chunk travels in one message, followed by its own digest |
| Sessions.ChunksJoin | filetransmission/ppcommon/include/ppcommon/session.hpp:162-214 | for every chunk size above 0 the chunks join to the file |
| Sessions.ChunkSizes | filetransmission/ppcommon/include/ppcommon/session.hpp:185-206 | no chunk is empty and all but the last have exactly the chunk size |
| Sessions.ChunkCount | filetransmission/ppcommon/include/ppcommon/session.hpp:162-214 | the number of chunks is the file size divided by the chunk size, rounded up |
| Sessions.OwnChunksPass | filetransmission/ppserver/src/server.cpp:306-311 | no chunk cut with the size announced in Accept is refused by the server's filter |
| SessionLoops.SenderMainLoop | filetransmission/ppcommon/include/ppcommon/session.hpp:147-223 | it terminates; it attempts a prefix of the chunk messages and then exactly one FinalChunk; it succeeds, with all chunks, if and only if the connection takes every chunk and no look into the queue finds an Abort, where there is one look before each chunk and one more after a full last one; otherwise it stops at the first look that finds an Abort or after the first send that fails |
| SessionLoops.Drain | filetransmission/ppcommon/include/ppcommon/session.hpp:165-178 | the look into the queue reports an Abort if and only if one is queued |
| SessionLoops.ReceiverMainLoop | filetransmission/ppcommon/include/ppcommon/session.hpp:60-128 | however the messages are batched, the output is the join of the first `disk` writes that the message-by-message function makes of all arrivals, and a part of the next; the stream is good if and only if there are no more writes than `disk`; on a good stream the result, and whether it ends, are that function's; on a bad one it stops after the batch, and false still means an Abort or a bad digest |
| SessionLoops.TakeQueue | filetransmission/ppcommon/include/ppcommon/session.hpp:84-122 | the inner loop takes its batch whole, unless a message ends it |
| SessionLoops.Opened | filetransmission/ppcommon/include/ppcommon/session.hpp:98-109 | a chunk is accepted if and only if its last 32 bytes are the digest of all before them, and its data is all before them |
| SessionLoops.Sealed | filetransmission/ppcommon/include/ppcommon/session.hpp:192-199 | reading into the body and pushing the digest makes the chunk message |
| Sessions.TakeDecides | filetransmission/ppcommon/include/ppcommon/session.hpp:84-122 | whoever sent the message: a loop that is not over fails exactly on an Abort and on a chunk whose last 32 bytes are not the digest of the rest, finishes exactly on a final chunk, and writes exactly what stands below a digest that fits |
| Integrity.FirstEndDecides | filetransmission/ppcommon/include/ppcommon/session.hpp:79-127 | of any messages whatever, the first Abort, chunk under a wrong digest, or final chunk ends the loop; it decides how, and what is written is the data of exactly the chunks before it |
| Integrity.LoopDecides | filetransmission/ppcommon/include/ppcommon/session.hpp:79-127 | the loop has failed if and only if the first message that ends it is an Abort or a chunk under a wrong digest, and finished if and only if that is a final chunk |
| Integrity.PiecesVerified | filetransmission/ppcommon/include/ppcommon/session.hpp:93-111 | every write is the front of a chunk among the messages that ends in the digest of that write |
| Disks.PiecesJoin | filetransmission/ppcommon/include/ppcommon/session.hpp:110 | the writes of the loop join to what it makes of the messages |
| Disks.WholePieces | filetransmission/ppcommon/include/ppcommon/session.hpp:79-123 | on all that a sender sends, the writes are exactly the chunks |
| Disks.PiecesMore | filetransmission/ppcommon/include/ppcommon/session.hpp:79-123 | more messages only add writes, and none once the loop is over |
| Disks.WholeFileIffDiskHolds | filetransmission/ppcommon/include/ppcommon/session.hpp:79-127 | on a sender's whole stream the disk holds the file if and only if it takes as many writes as there are chunks |
| Sessions.StreamToFile | filetransmission/ppcommon/include/ppcommon/session.hpp:79-127 | on any prefix of a sender's messages the receiver has written a prefix of the file and found nothing wrong; it finishes exactly on the whole, with the whole file |
| Sessions.TakeChunk | filetransmission/ppcommon/include/ppcommon/session.hpp:93-111 | a chunk sent under its own digest is accepted and its data appended |
| Channel.FifoChannel | net_common/include/net_common/net_connection.hpp:114-349 | whatever the interleaving, errors and delay, the peer reads a prefix of the messages posted, in order, and has all written ones once the bytes have arrived |
| Channel.StepMovesLink | net_common/include/net_common/net_connection.hpp:114-233 | every step of every thread moves the channel by a send on an open channel, a closing, both, or not at all, and never changes what was read |
| Channel.ByteMovesLink | net_common/include/net_common/net_connection.hpp:298-349 | every byte that arrives moves it by the next message or not at all, so reads only grow |
| RelayChannels.StepMovesLinks | net_common/include/net_common/net_connection.hpp:114-349 | every step of the relay moves each direction of each connection by at most one of the same steps |
| Channel.FlushedIsRead | net_common/include/net_common/net_connection.hpp:144-149 | after a returned flush the peer reads every message posted |
| Channel.ClosedIsRead | net_common/include/net_common/net_connection.hpp:86-97 | after a graceful close the peer reads every message posted before the first `disconnectAfterFlush` |
| WritePump.StepKeepsInv | net_common/include/net_common/net_connection.hpp:114-233 | every step of every thread keeps the pump's invariant |
| WritePump.PumpRefinement | net_common/include/net_common/net_connection.hpp:161-233 | over every interleaving: at most one write in flight, and on an unbroken connection one exactly when the out queue is non-empty; the wire is the frames in posting order and a prefix of the front frame, and exactly the written frames when the queue is empty; the pending counter is exact and positive when decremented |
| WritePump.FrontExists | net_common/include/net_common/net_connection.hpp:164-174 | no completion handler reads the front of an empty queue, and the bytes written by then are that message's |
| WritePump.FlushSafety | net_common/include/net_common/net_connection.hpp:144-149 | when the flush returns, every message whose `send` had succeeded is written in full, with or without errors |
| WritePump.NoLostWakeup | net_common/include/net_common/net_connection.hpp:176-182 | no thread sleeps in the flush while its condition holds |
| Closings.EveryCloseHappens | net_common/include/net_common/net_connection.hpp:77-97 | however the threads go on from any reachable state: when the sends under way and the I/O thread have nothing left to do, the socket is closed if a graceful close was ever asked for, a close of either kind is due, or it was closed already |
| Closings.AskedIsClosed | net_common/include/net_common/net_connection.hpp:77-97 | over every run both calls that close have closed the socket by the time nothing is left to do |
| Closings.OpenUnlessAsked | net_common/include/net_common/net_connection.hpp:77-97 | and only those calls and errors ever close it |
| Closings.WokenAtZero | net_common/include/net_common/net_connection.hpp:176-182 | a thread asleep in the flush is woken only when the count of pending writes reaches zero, or spuriously |
| WritePump.GracefulClose | net_common/include/net_common/net_connection.hpp:86-97 | on an unbroken connection the socket closes only after every message posted before the first `disconnectAfterFlush` is written in full; that it does close is `Closings.EveryCloseHappens` |
| Flushes.FlushProgress | net_common/include/net_common/net_connection.hpp:114-233 | while a flush must wait on an open, unbroken connection, a call of `send` is about to post or the I/O thread has a step that uses up its work |
| Flushes.FlushReturnsFromHere | net_common/include/net_common/net_connection.hpp:144-149 | from every reachable state of an open, unbroken connection that nobody closes, the sends under way and the I/O thread alone lead to the return of a flush |
| Flushes.DrainsAreFinite | net_common/include/net_common/net_connection.hpp:114-233 | from any reachable state, every sequence of posts by sends under way and of steps of the I/O thread is finite: no sequence is longer than the work there is and what its posts add |
| Flushes.EveryDrainFlushes | net_common/include/net_common/net_connection.hpp:144-149 | on an open, unbroken connection that nobody closes, every such sequence that cannot be extended ends where a flush returns |
| Flushes.EveryDrainEnds | net_common/include/net_common/net_connection.hpp:86-149 | with a close asked for, every one that cannot be extended ends where a flush returns or the socket is closed, which `FlushAfterClose` decides |
| Flushes.FlushAfterClose | net_common/include/net_common/net_connection.hpp:144-149 | once the socket is closed, by an error or on purpose, some continuation returns a flush if and only if no send is under way, no message is posted and not queued, and the queue is empty or its only message is on the wire with its completion to come |
| Flushes.GaspWire | net_common/include/net_common/net_connection.hpp:144-149 | in that case the wire holds every posted message in full |
| Flushes.FailedIsClosed | net_common/include/net_common/net_connection.hpp:194-197 | an error always closes the socket, so that covers every state after an error |
| Flushes.WorkDecreases | net_common/include/net_common/net_connection.hpp:161-233 | every step of the I/O thread strictly decreases a natural measure of its work |
| Flushes.FailedWriteSticks | net_common/include/net_common/net_connection.hpp:194-197 | a failed write leaves the front message queued with nothing in flight |
| Flushes.NeverFlushedAgain | net_common/include/net_common/net_connection.hpp:228-231 | in no continuation of a run after a failed write does a flush return or another message get written |
| Connections.Connection.Send | net_common/include/net_common/net_connection.hpp:114-136 | it succeeds exactly on a validated open connection and is then the three steps of the pump |
| Connections.Connection.Disconnect | net_common/include/net_common/net_connection.hpp:77-84 | on an open connection it is the pump's step that posts a close, otherwise nothing |
| Connections.Connection.DisconnectAfterFlush | net_common/include/net_common/net_connection.hpp:86-97 | it is the pump's step that posts a graceful close |
| Connections.Connection.RunPosted | net_common/include/net_common/net_connection.hpp:88-134 | running a posted task is the pump's step: a write starts only when none is in flight, a graceful close waits for the queue and happens at once when that is empty |
| Connections.FrameDoneIsSteps | net_common/include/net_common/net_connection.hpp:174-191 | what a completion handler does after a whole frame is the pump's three steps: pop, decrement, go on |
| Connections.Connection.OnHeaderWritten | net_common/include/net_common/net_connection.hpp:161-199 | the completion handler of a header is the pump's steps, in both outcomes and for empty and non-empty bodies |
| Connections.Connection.OnBodyWritten | net_common/include/net_common/net_connection.hpp:202-233 | the completion handler of a body is the pump's steps, in both outcomes |
| Connections.Connection.Flushed | net_common/include/net_common/net_connection.hpp:147-148 | it is the condition that the flush theorems are about |
| Framing.FrameRoundTrip | net_common/include/net_common/net_connection.hpp:298-337 | a frame is read back as its message if and only if the body is shorter than 2^32 bytes |
| Framing.PrefixDelivery | net_common/include/net_common/net_connection.hpp:298-349 | on any prefix of a stream of frames the reader delivers exactly the messages whose frames are complete |
| Framing.CompleteFramesExact | net_common/include/net_common/net_connection.hpp:161-233 | the count of complete frames is exact: they fit and one more would not |
| Framing.FramesThen | net_common/include/net_common/net_connection.hpp:339-349 | complete frames are taken off one by one whatever follows |
| Framing.DirectionDelivery | net_common/include/net_common/net_connection.hpp:236-349 | one handshake, then frames: a reader that got the expected handshake delivers the complete messages of any prefix; with any other handshake, none |
| Framing.HandshakeDecides | net_common/include/net_common/net_connection.hpp:258-295 | the server takes messages from a client if and only if the client answered the challenge with its obfuscation |
| Framing.FrameReader.OnGreetingRead | net_common/include/net_common/net_connection.hpp:264-281 | the first read consumes the handshake, and goes on or closes |
| Framing.FrameReader.OnHeaderRead | net_common/include/net_common/net_connection.hpp:298-320 | it keeps what is delivered the function of the bytes so far |
| Framing.FrameReader.OnBodyRead | net_common/include/net_common/net_connection.hpp:323-349 | it keeps what is delivered the function of the bytes so far |
| Framing.FrameReader.OnArrival | net_common/include/net_common/net_connection.hpp:298-349 | however the bytes arrive in pieces, the messages delivered are a function of all the bytes so far |
| NetMessage.MessageBuffer.PushValue | net_common/include/net_common/net_message.hpp:43-55 | the image is appended and the header size is the body length |
| NetMessage.MessageBuffer.PushContainer | net_common/include/net_common/net_message.hpp:57-85 | the bytes are appended and the header size is the body length, the empty container included |
| NetMessage.MessageBuffer.PopValue | net_common/include/net_common/net_message.hpp:87-99 | the last bytes of the body are taken off and returned |
| NetMessage.MessageBuffer.PopContainer | net_common/include/net_common/net_message.hpp:101-128 | the container is filled from the end of the body, short bodies included |
| NetMessage.ShortPop | net_common/include/net_common/net_message.hpp:101-128 | a container longer than the body takes the whole body in front and keeps its own bytes after it |
| NetMessage.PushThenPop | net_common/include/net_common/net_message.hpp:57-128 | popping as many bytes as were pushed gives them back and leaves what was below |
| Layout.LeastFirst | net_common/include/net_common/net_message.hpp:43-55 | the i-th byte of the memory image of an integer is its i-th digit to the base 256, the least first |
| Layout.HeaderLayout | net_common/include/net_common/net_connection.hpp:161-199 | a header is the id and then the size, four bytes each, least byte first |
| Layout.PhraseLayout | filetransmission/ppcommon/include/ppcommon/ppcommon.hpp:69-74 | from the end of the body down: the size byte, then the code |
| Layout.FileLayout | filetransmission/ppcommon/include/ppcommon/ppcommon.hpp:85-90 | from the end down: the eight bytes of the file size, the size byte of the name, the name |
| Layout.PreLayout | filetransmission/ppcommon/include/ppcommon/ppcommon.hpp:101-106 | from the end down: the payload type, the code phrase, the file |
| Layout.PostLayout | filetransmission/ppcommon/include/ppcommon/ppcommon.hpp:115-120 | from the end down: the payload type, the eight bytes of the chunk size, the code phrase, the file |
| Codec.PhraseRoundTrip | filetransmission/ppcommon/include/ppcommon/ppcommon.hpp:69-83 | on any prefix a code phrase is decoded to itself, leaving the prefix, if and only if its size byte is its length |
| Codec.FileRoundTrip | filetransmission/ppcommon/include/ppcommon/ppcommon.hpp:85-99 | the same for file data and its name size |
| Codec.PreRoundTrip | filetransmission/ppcommon/include/ppcommon/ppcommon.hpp:101-113 | with a sized phrase, pre-metadata always decodes to that phrase, and to itself if and only if the file part is sized |
| Codec.PostRoundTrip | filetransmission/ppcommon/include/ppcommon/ppcommon.hpp:115-127 | with a sized phrase, post-metadata round-trips if and only if the file part is sized |
| Codec.ChunkRoundTrip | filetransmission/ppcommon/include/ppcommon/ppcommon.hpp:129-143 | a chunk absorbs whatever lies below it, so it round-trips if and only if nothing does |
| Codec.RequestKeepsCode | filetransmission/ppclient/src/receiver.cpp:27-42 | a request whose file size and name size are uninitialised still decodes to the code that was typed |
| Codec.DecodedIsSized | filetransmission/ppcommon/include/ppcommon/ppcommon.hpp:76-113 | whatever bytes arrive, decoded strings have the length their size bytes say, so what the server re-encodes decodes again |
| Codec.EncodedPre | filetransmission/ppcommon/include/ppcommon/ppcommon.hpp:240-247 | the message that carries pre-metadata is its type and its encoding |
| Codec.EncodedPost | filetransmission/ppcommon/include/ppcommon/ppcommon.hpp:240-247 | the same for post-metadata |
| Codec.EncodedPhrase | filetransmission/ppcommon/include/ppcommon/ppcommon.hpp:240-247 | the same for a code phrase |
| Codec.EncodedEmpty | filetransmission/ppcommon/include/ppcommon/ppcommon.hpp:240-247 | a control message carries one byte |
| Codec.DecodedPost | filetransmission/ppcommon/include/ppcommon/ppcommon.hpp:249-255 | the client gets what the decoding function takes off an Accept |
| Codec.PushPre | filetransmission/ppcommon/include/ppcommon/ppcommon.hpp:101-106 | the operator on the message in place appends the encoding |
| Codec.PopPre | filetransmission/ppcommon/include/ppcommon/ppcommon.hpp:108-113 | the operator on the message in place takes off what the decoding takes off |
| Codec.PushPost | filetransmission/ppcommon/include/ppcommon/ppcommon.hpp:115-120 | the operator on the message in place appends the encoding |
| Codec.PopPost | filetransmission/ppcommon/include/ppcommon/ppcommon.hpp:122-127 | the operator on the message in place takes off what the decoding takes off |
| Codec.PushPhrase | filetransmission/ppcommon/include/ppcommon/ppcommon.hpp:69-74 | the operator on the message in place appends the encoding |
| Codec.PopPhrase | filetransmission/ppcommon/include/ppcommon/ppcommon.hpp:76-83 | the operator on the message in place takes off what the decoding takes off |
| Codec.PushFile | filetransmission/ppcommon/include/ppcommon/ppcommon.hpp:85-90 | the operator on the message in place appends the encoding |
| Codec.PopFile | filetransmission/ppcommon/include/ppcommon/ppcommon.hpp:92-99 | the operator on the message in place takes off what the decoding takes off |
| Codec.PushChunk | filetransmission/ppcommon/include/ppcommon/ppcommon.hpp:129-134 | the operator on the message in place appends the encoding |
| Codec.PopChunk | filetransmission/ppcommon/include/ppcommon/ppcommon.hpp:136-143 | the operator on the message in place takes off what the decoding takes off |
| Bytes.ReadBack | net_common/include/net_common/net_message.hpp:48-93 | an integer that fits its width is read back from its memory image |
| Bytes.WriteBack | net_common/include/net_common/net_message.hpp:48-93 | a memory image is written back from the integer it reads as |
| TsQueue.TSQueue.Empty | tsqueue/include/tsqueue/tsqueue.hpp:29-33 | true exactly for an empty queue, at the moment the mutex is held |
| TsQueue.TSQueue.Size | tsqueue/include/tsqueue/tsqueue.hpp:35-39 | the number of items |
| TsQueue.TSQueue.Clear | tsqueue/include/tsqueue/tsqueue.hpp:41-45 | no item is left |
| TsQueue.TSQueue.PushBack | tsqueue/include/tsqueue/tsqueue.hpp:63-70 | the item becomes the last |
| TsQueue.TSQueue.PopFront | tsqueue/include/tsqueue/tsqueue.hpp:47-53 | the first item is taken off |
| TsQueue.TSQueue.PushFront | tsqueue/include/tsqueue/tsqueue.hpp:72-79 | the item becomes the first |
| TsQueue.TSQueue.PopBack | tsqueue/include/tsqueue/tsqueue.hpp:55-61 | the last item is taken off |
| TsQueue.FirstInFirstOut | tsqueue/include/tsqueue/tsqueue.hpp:47-70 | in every interleaving of any number of producers and consumers, popped items followed by the contents are the items pushed, in push order |
| TsQueue.SafeIffOneConsumer | tsqueue/include/tsqueue/tsqueue.hpp:29-53 | testing `empty` and then popping never pops an empty queue, in any run, if and only if there is at most one consumer |
| Subnet.RangeArithmetic | filetransmission/ppclient/src/unix_ip_utils.cpp:151-179 | no step overflows 32 bits: broadcast is the host part above network, the host count is that of the range, and it is zero exactly below two host addresses |
| Subnet.RangeIsSubnetIffContiguous | filetransmission/ppclient/src/unix_ip_utils.cpp:156-163 | lying between network and broadcast is sharing the masked bits, for all addresses, if and only if the mask is contiguous |
| Subnet.UsableHosts | filetransmission/ppclient/src/unix_ip_utils.cpp:165-170 | first to last host are exactly the addresses of the subnet other than network and broadcast (section 3.2.1.3 of RFC 1122) |
| Subnet.JoinHostBits | filetransmission/ppclient/src/unix_ip_utils.cpp:158-159 | joining the host bits to a masked address adds them |
| Subnet.Scan | filetransmission/ppclient/src/discovery_client.cpp:79-93 | the loop ends, and probes every address from first to last but the local one exactly once, in ascending order, and nothing else |
| Subnet.ScanEndsExactly | filetransmission/ppclient/src/discovery_client.cpp:83-93 | for every address and mask the 32-bit counter ends the loop if and only if they are not both 255.255.255.255 |
| Subnet.ScanProbesUsableHosts | filetransmission/ppclient/src/discovery_client.cpp:83-93 | in a subnet with usable hosts, exactly those other than the local one are probed, and never network or broadcast |
| Subnet.ScanOfTinySubnet | filetransmission/ppclient/src/discovery_client.cpp:83-93 | without usable hosts the network address is probed, unless it is the local one |
| Subnet.LastHostCase | filetransmission/ppclient/src/unix_ip_utils.cpp:171-176 | the premises of the scan hold for every range but that of a /32 mask on 255.255.255.255 |
| Phrases.PhraseInjective | filetransmission/ppgenerator/src/phrase_generator.cpp:62-82 | two phrases are equal if and only if their draws are, for any two word counts |
| Phrases.WordsDistinct | filetransmission/ppgenerator/src/phrase_generator.cpp:12-59 | the words of the dictionary are distinct |
| Phrases.SplitAtDash | filetransmission/ppgenerator/src/phrase_generator.cpp:70-73 | a word without a dash and what follows its dash are determined by the text |
| Phrases.PhraseLength | filetransmission/ppgenerator/src/phrase_generator.cpp:70-79 | a phrase of n words has at most 14n + 3 characters, and at least 4n + 3 |
| Phrases.LongestLength | filetransmission/ppgenerator/src/phrase_generator.cpp:33-81 | the bound is reached for every n |
| Phrases.EighteenWords | filetransmission/ppclient/src/sender.cpp:39-40 | every phrase of n words survives the wire under its truncated size byte if and only if n is at most 18 |
| Phrases.ClosingDigits | filetransmission/ppgenerator/src/phrase_generator.cpp:75-79 | a phrase ends in its three closing draws as hexadecimal digits, in lower case and in the order drawn |
| Phrases.WordsInOrder | filetransmission/ppgenerator/src/phrase_generator.cpp:70-73 | before them stand the words of the draws, in the order drawn, each with a dash after it |
| Phrases.GetRandomPhrase | filetransmission/ppgenerator/src/phrase_generator.cpp:62-82 | the loop over given draws builds the words and, after them, the three closing digits in order |

## Left out

- Sockets, asio, the resolver, threads, clocks, sleeps and timeouts: they appear as posted tasks, byte streams, queues and steps that may or may not happen.
- Liveness of the relay: `Transfers.EveryFileCanBeDelivered` gives a run for every file, but no scheduler is modelled, so nothing says that such a run is taken. For a single flush, `Flushes.EveryDrainFlushes` covers every order of its threads; that they go on at all is not modelled.
- Closing during a handler: in the relay a connection closes between two handled messages, so all sends of one handler see the same set of open connections (`FileServers.FileServer.Update` takes a new one for each message). A handler sends at most one message, so this only fixes whether that one leaves.
- Relay.Initial: assumes that the codes and the file name have at most 255 bytes, as their size bytes say, and that the file keeps the size it had when it was announced. A longer code or name is cut by its size byte (`Codec.PhraseRoundTrip`, `Codec.FileRoundTrip`).
- Relay.HandleNext: does not force the close that `disconnectAfterFlush` asks for, because a connection may close at any step anyway; the order of Success and close is in `CloseOrder.ClosedAfterSuccess`.
- WritePump.GracefulClose: speaks of the messages posted before the first `disconnectAfterFlush`; later calls promise less than the code gives, since the queue may keep a closing connection open longer.
- Flushes.FlushReturnsFromHere: requires that no close was asked for; with one pending, the messages posted behind it may or may not be queued in time. `Flushes.EveryDrainEnds` says how it can end, and once the socket is closed `Flushes.FlushAfterClose` is exact.
- Waiting.ConfirmationPossible: is about the server. It does not say which of those events the clients of a given state can still bring about: that depends on what each of them has sent and not sent.
- EndToEnd.NothingMalformed: assumes that rogues send only what the server can decode; shorter bodies are read out of bounds by the program.
- WiredRelay.Do: when a connection has closed, the program's end of it closes at a later step (`Notice`), and in between the program does not send; in the code it is the test inside `send` that notices.
- Disks.OnDisk: a write of the output stream is taken or fails when it is made; the buffer of the stream, and a failure that only its close reports, are not modelled.
- WritePump.PumpRefinement: handshake bytes reach the wire in one step, because no message can be sent before they are written in full.
- SessionLoops.ReceiverMainLoop: a chunk too short to hold a digest counts as a failed check; the program would read out of bounds. `EndToEnd.NothingMalformed` shows that no client is ever sent one.
- Server.HandleChained: requires that the message can be decoded; bodies too short for `>>` are read out of bounds by the program.
- Codec.PreRoundTrip: requires a code phrase of the length its size byte says; a longer one is cut, which `Codec.PhraseRoundTrip` states as an equivalence.
- Sessions.ChunksJoin: requires a chunk size above 0; the server announces 512, and with 0 the loop ends at once without a chunk.
- Subnet.Scan: requires that the last host is not 255.255.255.255; `Subnet.LastHostCase` and `Subnet.ScanEndsExactly` say when that is and what happens then.
- Isolations.IsolatedRun: is about connections that claim once, as the receiver program does; one that claims again after its session ended starts a second stream, which `Isolations.Isolation` covers from that point on.
- An input file that does not exist: the sender returns false before its first chunk.
- The value of the one byte that encodes an empty struct: it is 0 here and is never read.
- SHA-256 itself: no collision resistance is claimed or needed.
- The formula of `obfuscate`.
- Discovery replies, the discovery server, and the operating-system queries for the local address and netmask.
- `messageClient` and `messageAllClients`: never called by `FileServer`; their effect on the storage, `onClientDisconnect`, is a step that may happen at any time.
- The deprecated `ServerSaveFileSession`, argument parsing, logging, prompts and random number generation.
