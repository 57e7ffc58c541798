# Lightspeed: ingest connection and signalling hub, modelled and proved

Project-Lightspeed has two small pieces of concurrent code whose correctness is a matter of whole
runs. This project models both and proves what they keep.

**Ingest (Rust).** A client speaks the FTL text protocol over TCP. A codec cuts the growing byte
buffer at blank lines and classifies each frame by an ordered chain of substring tests
(`FtlCodec.dfy`, `Framing.dfy`, `RoundTrip.dfy`; `Classification.dfy` says what becomes of every
frame). A *frame task* owns the socket and a *command task* owns the negotiated state; two
channels of capacity two join them (`Connection.dfy`, `Session.dfy`). The stream key lives in a
file named `hash` (`StreamKey.dfy`), and the negotiated attributes in fields named after them
(`Attributes.dfy`).

The codec, the connection state, the key file and the answer writer are classes and methods that
work in place. The two tasks are a step system: a state with the program counters of both tasks,
both channels, the buffer, the bytes not yet delivered and the bytes written, and one function per
atomic step. A schedule is a list of steps; `Run` says where it leads. The main results
(`SessionTheorems.dfy`, `SessionHistory.dfy`) hold for every schedule, every input and every way
the bytes arrive (`SessionChunks.dfy`): the two tasks behave like one sequential loop, at most one
message is ever in flight, the connection stalls after exactly the commands the server never
answers, every `200\n` was earned, and a client that reads the wire line by line learns exactly
the answers it is owed (`AnswerLines.dfy`).

**Signalling hub (Go).** One loop owns the set of clients and reacts to register, unregister and
broadcast events; websocket handlers and peer-connection callbacks check membership and send under
the read half of an `RWMutex`; each client has a write loop on an unbuffered channel
(`HubModel.dfy`). Every RLock, check, RUnlock, Lock, delete, Unlock, close of the connection and
close of the channel is a step of its own, over any number of clients and goroutines, with the
mutex (readers, pending writer, writer) as explicit state; Go's select and map iteration choose
freely. Proved for every schedule: no send on a closed channel, each client's life only moves
forward (`HubSafety.dfy`), it leaves the map exactly when a removal was taken in time
(`HubMembers.dfy`), every client gets exactly its stretch of the broadcast log
(`HubBroadcast.dfy`), every goroutine runs its program and every client gets its offer and its
candidates exactly when the check found it (`HubGoroutines.dfy`, `HubMessages.dfy`), the viewer
counts are conserved and bounded (`HubCounts.dfy`), deadlock is characterised (`HubLiveness.dfy`,
`HubReturn.dfy`, `HubLoss.dfy`), the order of the counts too (`HubOrder.dfy`), runs are bounded
(`HubTermination.dfy`), and write loops write in order (`HubWriter.dfy`). `HubLoop.dfy` gives the
branches of the hub's select as code, each shown to be an uninterrupted schedule of the step
system; `ClientLoop.dfy` gives the write loop as code, and every run of the step system is shown
to be a run of it.

**What turned out not to hold.** The hub can hang (`HubWitness.HubCanHang`): select may take a
client's Unregister before its Register, the client then enters the map after its handler has
gone, its write loop fails on the closed connection, and the next broadcast blocks for good. Who
is left behind in that way is exact: with nothing pending a client is in the map if and only if
the hub never took an Unregister of it while it was there (`HubMembers.MembersAtRest`).
`HubReturn.ReturnsExactly` says for every reachable state when the hub can come back to its
select: every client still owed the broadcast under way must be able to receive, that is its write
loop waits, or holds a message with the connection open; and on the way to the write lock the
client of every guard that holds the read lock and is bound to send must be able to, with an open
connection where two guards have the same client. `HubReturn.TakesExactly` is that condition at
the select, before the hub commits itself. Where it fails the hub never comes back; where it holds
it can, but need not: a broadcast under way can still be lost to a failing write as long as anyone
is owed it (`HubLoss.LostExactly`), and without failures exactly if a client still owed it has
lost its write loop or its connection already (`HubLoss.LostHarmlesslyExactly`).
`HubLiveness.StillExactlyWhenIdle` and `HubLiveness.FacingNeverIdle` say the same of the protocol
as a whole: without a sender in front of a returned write loop it stands still only when nothing
is pending, and with one it never gets there.

Nor need the last count broadcast be the current one (`HubWitness.LastBroadcastCanBeStale`), since
the goroutines that carry the counts race. The counts go out in the order in which they were taken
if and only if the hub takes the oldest waiting one every time (`HubOrder.OrderedExactly`), and
then the last one is current (`HubOrder.InOrderEndsCurrent`); `HubOrder.LastIsCurrentExactly` is
the exact condition for the last count by itself.

The comment at webrtc/ws/client.go:19 calls the client's channel buffered; the code makes it
unbuffered (webrtc/ws/client.go:30) and the model follows the code.

**Conventions.** Bytes and ASCII characters are identified, so a `string` is a byte sequence and
lossy UTF-8 decoding is the identity. HMAC-SHA512 is an arbitrary function, the random payloads
are an arbitrary sequence of 128 values below 0xFF each, and the key file may hold anything at
each command. A panic is an outcome of its own. Fields that only record the past (`trace`,
`answered`, `wire`; `taken`, `attempted`, `joined`, `left`, `log`, `sizes`, `snaps`) are never
read by a step.

## Model

| member | source | states |
|---|---|---|
| Hex.DecodeIsInverseOfEncode | ingest/src/connection.rs:235-241 | a text decodes to given bytes if and only if its lower-case form is their encoding, so odd lengths and non-digits never decode (section 8 of RFC 4648) |
| Hex.EncodesByteByByte | ingest/src/connection.rs:350 | each byte is written as two lower-case digits, the high one first (section 8 of RFC 4648) |
| Hex.RoundTrip | ingest/src/connection.rs:350 | decoding the encoding of any bytes gives them back |
| Text.TrimFixesExactlyTrimmed | ingest/src/ftl_codec.rs:60 | trimming leaves a text alone exactly when it neither starts nor ends with white space, and a leading blank makes no difference |
| Classification.TrimDropsBlankEnds | ingest/src/ftl_codec.rs:60 | trimming takes off exactly the ASCII white space at both ends, whatever is between |
| FtlCodec.BytesMut.DelimiterPosition | ingest/src/ftl_codec.rs:39 | the window search finds the first occurrence of the delimiter, or none exists |
| FtlCodec.FtlCodec.Decode | ingest/src/ftl_codec.rs:36-76 | the decoder yields the classification of the first complete frame and leaves exactly the bytes after its delimiter, also when it refuses the frame; without a delimiter nothing changes; the command buffer is reset except on a panic |
| FtlCodec.FtlCodec.Encode | ingest/src/ftl_codec.rs:84-89 | encoding appends the line and nothing else |
| FtlCodec.FtlCodec.DrainLoop | ingest/src/connection.rs:105-106 | decoding until nothing comes out delivers the items, stop and leftover of the whole buffer |
| FtlCodec.FtlCodec.FeedAll | ingest/src/ftl_codec.rs:36-75 | feeding any list of chunks to the decoding loop gives the items, stop and leftover of their concatenation |
| FtlCodec.DrainExtends | ingest/src/ftl_codec.rs:36-75 | draining a longer buffer is draining the shorter one and then its leftover with the new bytes |
| FtlCodec.ChunkIndependence | ingest/src/ftl_codec.rs:36-75 | any split of the stream, also inside a delimiter, gives the same frames, items, stop and leftover as the whole stream |
| Classification.KindOfEveryText | ingest/src/ftl_codec.rs:43-72 | which command every frame whatever is, or that it is refused, as an if and only if on its text |
| Classification.ConnectFields | ingest/src/ftl_codec.rs:49-57 | every CONNECT of three words or more gives its second word and its third without the first character, or panics if the third is empty |
| Classification.ConnectTooShort | ingest/src/ftl_codec.rs:49-52 | every CONNECT of one or two words panics |
| Classification.AttributeFields | ingest/src/ftl_codec.rs:58-63 | every attribute gives what stands before its first colon, and what stands between that and the next without the white space at its ends |
| Classification.EveryConnectHasWords | ingest/src/ftl_codec.rs:49-57 | every text has one of the two shapes of a CONNECT |
| Classification.EveryAttributeHasFields | ingest/src/ftl_codec.rs:58-63 | every text with a colon has the shape of an attribute |
| Framing.ExactFraming | ingest/src/ftl_codec.rs:39-42 | whatever follows, the cut falls at the end of a body if and only if the body holds no delimiter and does not end in a line break |
| Framing.DrainIsFraming | ingest/src/ftl_codec.rs:36-75 | consumed frames with their delimiters plus leftover equal the received bytes, each frame is clean and is the item delivered, and a leftover waiting for more holds no delimiter |
| Framing.FramingIsDrain | ingest/src/ftl_codec.rs:36-75 | a stream of clean command frames with an incomplete tail has no other reading: the decoder finds exactly that framing |
| RoundTrip.PrintsCleanlyIffSendable | ingest/src/ftl_codec.rs:39-68 | the printed form of a command is one clean frame that classifies to it exactly when its fields meet the stated conditions |
| RoundTrip.ReadBackExactly | ingest/src/ftl_codec.rs:36-76 | a printed command followed by the delimiter and anything else is read back, and no more consumed, if and only if its fields meet the conditions the ordered tests force |
| RoundTrip.RoundTrip | ingest/src/ftl_codec.rs:36-76 | any list of such commands, printed with delimiters, drains to that list with nothing left |
| Connection.ConnectionState.HandleCommand | ingest/src/connection.rs:214-341 | the handler updates the state and answers, stays silent or panics as the command and the state demand |
| Connection.ConnectionState.StoreAttribute | ingest/src/connection.rs:274-309 | an attribute sets its own field, an unknown key none, and a flag that is neither true nor false is refused without a change |
| Connection.GenerateHmac | ingest/src/connection.rs:343-351 | the payload is 256 hex digits that decode to the 128 values drawn, in order |
| Connection.ReversedTwice | ingest/src/connection.rs:188-191 | reversing and popping from the end yields the pieces in their order |
| Connection.HandleFrameCommand | ingest/src/connection.rs:182-212 | the pieces reach the wire in order; it fails exactly when the socket takes fewer bytes than the answer has, after writing that many, or when there is no answer |
| SessionProofs.ReachableIsSound | ingest/src/connection.rs:98-178 | every reachable state keeps the lockstep shape, is on the sequential loop's track, and its history, answers and wire agree |
| SessionTheorems.TwoTasksRefineTheLoop | ingest/src/connection.rs:98-178 | for every schedule and chunking, also when writes fail midway, the bytes written and commands handled are a prefix of the sequential loop's |
| SessionTheorems.QuietIsFinished | ingest/src/connection.rs:98-178 | the connection can move exactly until both tasks have exited, they wait for each other, or it waits for a client that sends nothing more |
| SessionTheorems.QuietMeansComplete | ingest/src/connection.rs:98-178 | without a write error, once neither task can move, output, commands handled and ending are exactly the loop's |
| SessionTheorems.SchedulesAreBounded | ingest/src/connection.rs:98-178 | on an input of n bytes no schedule of the two tasks has more than 69n + 2 steps, whatever the answers and however the writes are cut |
| SessionChunks.EveryChunkingIsASchedule | ingest/src/connection.rs:104-178 | whatever non-empty chunks an input comes in, if the loop handles all of it some schedule reads exactly those chunks and writes all that the loop writes |
| SessionTheorems.RunsToTheEnd | ingest/src/connection.rs:104-178 | every reachable state can be run on, without write errors, to one where neither task moves |
| SessionTheorems.Lockstep | ingest/src/connection.rs:98-120 | at most one command or answer is in flight over both channels and tasks, no channel send blocks or is refused |
| SessionTheorems.AnswersInOrder | ingest/src/connection.rs:105-120 | the k-th answer written is the answer to the k-th command in the state its predecessors left; the wire is those answers plus the written part of the next |
| SessionTheorems.StallExactlyAfterSilence | ingest/src/connection.rs:105-178 | both tasks wait for each other if and only if the last command handled is one the server never answers; then nothing moves again, and live tasks stand still otherwise only to wait for the client |
| SessionTheorems.JointShutdown | ingest/src/connection.rs:105-176 | once one task is gone the other has exactly one step left and it ends it; the command task is never gone while the frame task waits for the client |
| SessionHistory.AnsweredConnectProves | ingest/src/connection.rs:232-259 | a CONNECT is answered if and only if its hash is the MAC of the payload under the stream key, and only a CONNECT is answered with 200 alone |
| SessionHistory.RemembersLastPayload | ingest/src/connection.rs:38-43 | the stored payload is the one in the last payload answer |
| SessionHistory.Authenticated | ingest/src/connection.rs:219-259 | every 200 answers a CONNECT whose hash verifies, under the key the file holds when it is handled, against the payload most recently written on that connection, or the empty one |
| SessionHistory.WrittenAfterConnectMeansVerified | ingest/src/connection.rs:230-268 | any byte written after a CONNECT was handled implies that the CONNECT verified |
| AnswerLines.AnswerReads | ingest/src/connection.rs:219-338 | every answer is whole lines and a client reading them learns which answer it is: the 128 values of a challenge, an accepted CONNECT, the media port, a pong; an attribute's answer is no line at all |
| AnswerLines.WireTellsTheAnswers | ingest/src/connection.rs:98-338 | in every reachable state, also after a broken write, the lines on the wire read back as the first of those owed for the commands handled, in order and with the payloads drawn in order; as all of them once the server waits for the client or for nothing, or the connection ended without a broken write |
| SessionHistory.PayloadDecodes | ingest/src/connection.rs:240-241 | decoding the stored payload never fails: it is absent or the hex form of the last payload drawn |
| SessionHistory.PanicsExactly | ingest/src/connection.rs:233-242 | the command task panics on exactly the CONNECTs whose hash is not hex, or when the key file is unusable |
| Attributes.EveryFieldByName | ingest/src/connection.rs:270-309 | each of the thirteen fields holds the value of the last attribute of its literal name, the flags the last valid one; no other name changes any |
| SessionHistory.ServerKeyIsLookup | ingest/src/connection.rs:236 | the key a CONNECT is checked against is the look-up of the key file as it then is |
| SessionHistory.AnsweredFromFile | ingest/src/connection.rs:232-259 | where the file holds the key K, a CONNECT is answered if and only if its hash is hex for the MAC under K of the payload drawn last |
| SessionHistory.PanicsFromFile | ingest/src/connection.rs:233-242 | a CONNECT panics if and only if its hash, or the file, is hex for nothing |
| SessionHistory.ProvesTheStartupKey | ingest/src/connection.rs:232-408 | a 200 proves knowledge of the key that start-up chose, as long as the file is what start-up left |
| SessionHistory.LoopFollowsDecoder | ingest/src/connection.rs:104-178 | the loop handles the decoded commands in order from the first, writes the concatenation of their answers, and stops early only at the first without an answer |
| SessionHistory.FramePanicsExactly | ingest/src/connection.rs:104-137 | the frame task's loop ends in a panic if and only if every command before was answered and the next frame is a CONNECT with no third word or an empty one (ingest/src/ftl_codec.rs:43-52) |
| StreamKey.KeyFile.ReadStreamKey | ingest/src/connection.rs:370-408 | start-up prefers the environment's key, then the stored one, then a new one, and stores what it chose; a look-up reads the file |
| StreamKey.KeyFile.GenerateStreamKey | ingest/src/connection.rs:353-360 | a generated key is returned only if it was stored |
| StreamKey.StartupExactly | ingest/src/connection.rs:370-403 | for every file: the environment's non-empty key if it can be stored; else the key the file holds if it is text; else, if it holds none, the random key if it can be stored; else none |
| StreamKey.LookupExactly | ingest/src/connection.rs:404-407 | a look-up gives the key the file holds and panics if it holds none |
| StreamKey.FirstStart | ingest/src/connection.rs:353-408 | with no usable file and no key in the environment the random key is stored and is what every later look-up returns |
| StreamKey.FileIsRegister | ingest/src/connection.rs:370-408 | a file holding a key behaves as a register that only a start-up with an environment key sets |
| StreamKey.KeyPersists | ingest/src/connection.rs:370-408 | whatever the file held, the key a start-up returns is what every later call returns until another comes from the environment |
| HubSafety.LockStepOther | webrtc/main.go:258-262 | a goroutine holds the read lock exactly from its RLock to its RUnlock |
| HubSafety.HubKeepsLock | webrtc/ws/hub.go:59-81 | the hub's lock flags follow its code and a writer is alone |
| HubSafety.PendingKeepsReadersOut | webrtc/ws/hub.go:59-69 | while the hub waits for the write lock no reader gets in, and none is there while it holds it |
| HubSafety.LifeStep | webrtc/ws/hub.go:57-75 | membership, closing and the single registration of every client are kept by every step; a guard between its check and its send keeps its client in the map |
| HubSafety.StepNeverPanics | webrtc/ws/hub.go:34-79 | no step sends on a closed channel or closes one twice |
| HubSafety.ReachableIsSound | webrtc/ws/hub.go:55-84 | every reachable state keeps the lock and life-cycle invariants and has not panicked |
| HubSafety.NoSendOnClosedChannel | webrtc/ws/hub.go:63-79 | in every reachable state whoever is past its membership check holds the read lock and its client is in the map with its channel open; nothing ever panics |
| HubSafety.LifeCycle | webrtc/ws/hub.go:63-75 | each client stays in its phase or moves to the next in every step, so it joins, leaves and is closed at most once and never returns; the check before the lock upgrade still holds at the delete |
| HubSafety.ConnectionClosedBeforeChannel | webrtc/ws/hub.go:70-71 | a client's connection is closed before its channel, so its close frame can no longer be delivered |
| HubBroadcast.ReachableCasts | webrtc/ws/hub.go:76-81 | every reachable state keeps the broadcast invariant for every client |
| HubBroadcast.ExactBroadcast | webrtc/ws/hub.go:55-84 | the infos handed to a client are exactly the broadcast log from its insertion to its deletion or to now, each once and in order; only one in progress may be missing |
| HubBroadcast.ClientsAgree | webrtc/ws/hub.go:76-81 | two clients that share a broadcast hold it at the places its number in the hub's log gives |
| HubGoroutines.RunsItsProgram | webrtc/main.go:235-310 | every goroutine takes exactly the steps its origin prescribes, in order, sending if and only if its check found its client |
| HubGoroutines.MessagesExactly | webrtc/main.go:258-304 | the messages handed to a client other than counts are, in order, the offer of its handler and the candidates of its callbacks |
| HubMessages.OfferExactly | webrtc/main.go:300-304 | a client gets one offer if its handler found it in the map and has sent, else none; after the handler's RUnlock it was skipped if and only if the check did not find the client |
| HubMessages.CheckFinds | webrtc/main.go:301 | a check finds its client exactly between the hub's insertion and its deletion |
| HubMessages.CandidatesExactly | webrtc/main.go:258-262 | a client gets as many candidates as callbacks of its connection sent, each once and after a check that found it |
| HubMessages.ChannelsAreFifo | webrtc/ws/hub.go:57-63 | the clients the hub has turned to and then those queued are those registered, or unregistered, in order |
| HubMessages.ClosedExactly | webrtc/ws/client.go:40-137 | a connection is closed exactly if its own handler closed it, its write loop returned or the hub closed it on removal |
| HubMessages.OutsideExactly | webrtc/main.go:237-280 | a client can always arrive, its callbacks fire once its registration was sent, its socket fails once after the offer |
| HubCounts.ViewerCounts | webrtc/ws/hub.go:58-102 | map sizes form a walk of single steps from zero ending at the present size, the counts handed out are those sizes in order, and each is still carried or was broadcast, as often as it was handed out |
| HubCounts.BroadcastsAreTrue | webrtc/ws/hub.go:86-102 | every broadcast count was the true size after some change |
| HubCounts.BroadcastBound | webrtc/ws/hub.go:58-82 | with N clients there are at most 2N broadcasts, done or waiting, and 2N·N infos handed over |
| HubOrder.OrderedExactly | webrtc/ws/hub.go:58-106 | in every state of a run the counts broadcast, then those waiting, are the counts handed out in order, if and only if the hub takes the oldest waiting goroutine every time |
| HubOrder.InOrderEndsCurrent | webrtc/ws/hub.go:58-106 | if it does, then with no count under way the broadcast log is the whole history of map sizes and the last one is the present size |
| HubOrder.LastIsCurrentExactly | webrtc/ws/hub.go:76-106 | the last count waiting is the present size if and only if that size has been broadcast once less than it was reached |
| HubMembers.LeftExactly | webrtc/ws/hub.go:63-75 | unless the hub is just on its way to it, a client has been deleted if and only if the hub once took an Unregister of it while it was in the map |
| HubMembers.MembersAtRest | webrtc/ws/hub.go:55-84 | with nothing pending every client that arrived has joined, and it is in the map if and only if there was no such removal, whether its handler is there or not |
| HubLiveness.SomethingMoves | webrtc/ws/hub.go:55-84 | with something pending and no sender facing a returned write loop, some protocol step is possible, also while the hub waits for the write lock |
| HubLiveness.StillExactlyWhenIdle | webrtc/ws/hub.go:55-84 | in a reachable state where no sender faces a returned write loop, the protocol stands still if and only if nothing is pending |
| HubLiveness.DeadlockFree | webrtc/ws/hub.go:55-84 | while the write loops of all registered clients are there, every reachable state with something pending can move |
| HubLiveness.HubStuckForGood | webrtc/ws/hub.go:76-81 | once a broadcast reaches a registered client whose write loop returned, no later hub step is possible and the map stays as it is |
| HubLiveness.MapFrozenForGood | webrtc/main.go:258-262 | a guarded send to such a client keeps the read lock for good: no client is ever added or deleted again |
| HubLiveness.FacingNeverIdle | webrtc/main.go:258-262 | once a sender faces a returned write loop no schedule leads to a state with nothing pending |
| HubWitness.HubCanHang | webrtc/ws/hub.go:57-81 | a concrete schedule leads the hub into a broadcast it never finishes, with every other goroutine ended |
| HubWitness.LastBroadcastCanBeStale | webrtc/ws/hub.go:62-102 | a concrete schedule leaves two clients registered, no count under way, and one as the last count broadcast |
| HubReturn.ReturnsExactly | webrtc/ws/hub.go:55-84 | in every reachable state some schedule brings the hub back to its select if and only if every client still owed the broadcast under way can receive, or, on the way to the write lock, every guard bound to send can |
| HubReturn.TakesExactly | webrtc/ws/hub.go:57-81 | at the select: some schedule leads back after a broadcast is taken if and only if all registered clients can receive; after a registration or an effective removal, if and only if all guards bound to send can |
| HubLoss.LostExactly | webrtc/ws/hub.go:76-81 | if writes may fail, a broadcast under way can reach a state from which the hub never comes back if and only if some client is still owed it |
| HubLoss.LostHarmlesslyExactly | webrtc/ws/hub.go:76-81 | if no write fails and no handler closes its connection, it can if and only if a client still owed it has already lost its write loop or its connection |
| HubLoss.OpenCastCompletes | webrtc/ws/hub.go:76-81 | otherwise every such continuation by the protocol stays within the bound, and where it can go no further the broadcast is over |
| HubTermination.ProtocolStepCost | webrtc/ws/hub.go:55-84 | every step that is not the outside world's lowers the measure |
| HubTermination.StepsBound | webrtc/ws/hub.go:55-106 | with at most n clients and E outside events, a run has at most (3n+19)·E protocol steps |
| HubTermination.ServedOrFacing | webrtc/ws/hub.go:55-106 | from a reachable state every continuation by the protocol alone stays within the bound, and one that cannot be continued has served everything pending or has a sender facing a returned write loop |
| HubWriter.WriterOrder | webrtc/ws/client.go:99-137 | a write loop attempts the messages handed to it in order with none skipped; a close frame at most once, after the hub closed the channel, and nothing after it (section 5.5.1 of RFC 6455) |
| HubLoop.Hub.OnBroadcast | webrtc/ws/hub.go:76-81 | the broadcast branch hands the message once to every registered client, or to some that receive and then stays, with the read lock held, in the send to one that does not; to no other |
| HubLoop.InsertedIsASchedule | webrtc/ws/hub.go:58-62 | the register branch is what the hub's steps compute when uninterrupted |
| HubLoop.RemovedIsASchedule | webrtc/ws/hub.go:63-75 | so is the unregister branch |
| HubLoop.BroadcastIsASchedule | webrtc/ws/hub.go:76-81 | so is the broadcast branch, in any order of the clients, whether it completes or ends in a send that is not possible |
| ClientLoop.WriteLoop | webrtc/ws/client.go:99-137 | the loop handles its events up to the first that ends it and then closes the connection; it attempts exactly the messages received, in order, and a close frame only last |
| ClientLoop.RunIsALoop | webrtc/ws/client.go:99-137 | in every run of the step system what a client's write loop attempted is what this code attempts on the events of that run, and it returned, closing the connection, exactly if the last event ends the loop |
| ClientLoop.FramesMirrorEvents | webrtc/ws/client.go:107-135 | the frames attempted are one per event: texts for messages, a close frame only for the closed channel |

## Left out

- HubLoop.Hub.OnRegister: run without interruption and with the lock free; waiting for the lock and interference are in the step system only.
- HubLoop.Hub.OnUnregister: run without interruption, as above.
- HubLoop.Hub.OnBroadcast: what other goroutines do meanwhile is in the step system only.
- The websocket handler, its callbacks and the read loop are goroutines of the step system, not methods of their own.
- The step systems of the two ingest tasks and of the hub are states and functions on them, not objects: interleaving is the point there, aliasing is not.
- Sockets, TLS, HTTP upgrade, peer connections, ICE, SDP and RTP: only their effects (a read fails, a callback fires, a write fails) appear.
- Timers and deadlines: a ping is a write that may fail at any time.
- JSON: a hub message is an info with its count, an offer or a candidate.
- HMAC-SHA512 and random generation: an arbitrary function and arbitrary values.
- Non-ASCII input and lossy UTF-8 decoding.
- The RTP forwarding loop, port-range parsing, logging and command-line parsing.
- The React front end, the webrtc/internal/signal helpers, installer and container files.
