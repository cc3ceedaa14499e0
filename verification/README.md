# Snowpack in Dafny

Snowpack is an authenticated, encrypted transport between known peers, built on the Noise XX
handshake. This project models its four core files and proves what they promise:

- **Packets** (`src/packet_state.rs`): the builder that cuts messages into `Sole`, `First`, `Mid`,
  `Last` and `Abort` packets, and the reader that checks them.
- **Frames and halves** (`src/packets.rs`): chunking, encryption under a counter, the 16-bit length
  prefix, the buffers of both halves, and the XX handshake.
- **Messages** (`src/messages.rs`): sending whole messages and streams, reading them back whole or
  packet by packet.
- **The pool** (`src/pool.rs`): one link per peer, a mutex, background reconnect tasks with
  backoff, guards that commit or are dropped, and waiters on a notification.

## Main results

- `EndToEnd.EndToEnd`: for every run of the sending interface, over any payloads, a receiver
  observes on the wire exactly what a channel with no packets, frames or encryption would deliver.
- `Duplex.LiveObservation`: the same while the connection is live, for every interleaving of calls,
  reads and arrivals of any number of bytes in both directions, and for a stream cut at any byte.
- `PacketProtocol.Simulation`, `PacketProtocol.ReaderLanguage`: builder and reader stay in step
  under every interleaving, and the reader accepts exactly a grammar.
- `Channel.ChannelSafety`: both directions stay prefix-correct under an arbitrary network.
- `PeerLinkLaws`: in every reachable state of a link, faults included, mutual exclusion, at most one
  reconnect task and clean hand-over; `PeerLinkLaws.RecoverableExactly` says exactly which runs can
  still recover. `Pool.PoolIdentity` lifts the laws to the pool.
- `AuthenticatedPool.TransportsAuthenticated`: in the pool composed with the handshake, every
  transport the pool holds or hands out comes from a handshake session of its own that
  authenticated the right peer.
- `Handshake`: what completing `connect` and `accept` means over any number of sessions and an
  active network.
- `PoolObjects`: the pool's functions whole, with contracts that hold whatever other tasks do
  between any two of their sections.

The mutable objects of the source are classes (`PacketState`, `Packets`, `Messages`,
`PoolObjects`); each method is proved against a function on values, and the laws are proved about
those functions. A concurrent link is a transition system whose steps are the indivisible sections
of the source's functions; a dropped guard resets the state, spawns its successor and releases the
lock in three separate steps, so the new task may run before the lock is free. In `PoolObjects` the
same sections make up `reconnect_task`, `acquire`, a guard's life and `wait_connected`, and between
any two of them `Runtime.Interfere` lets the others take any run of steps. `Runtime` holds what the
scheduler knows, the place each task has reached; `SharedLink` holds what the source's link holds.

## Where code and intent differ

Each of these is in the model as the code has it; where behaviour differs, the exact condition is
proved.

- `send_reader` sends no closing packet when the stream is a nonzero exact multiple of the packet
  size: `EndToEnd.StreamDelivery`, `EndToEnd.StreamLeavesOpen`.
- `abort_message` after a stream that failed before its first full packet sends an `Abort` that the
  peer refuses: `AbortedCalls.FailedStreamThenAbort` at an input, `AbortedCalls.AbortRefusedExactly`
  for any run of calls, `PacketProtocol.Simulation` for any run of builder calls.
- `read_message` accepts any packet as an opening packet: `Messages.PanicExactly` says when that
  leads into an `unreachable!` arm, `Messages.EarlyDropPanics` and `Messages.EarlyDropTruncates`
  give inputs.
- A link is stranded for ever by a reconnect task that ends early, because its connector panics or
  its runtime shuts down (`PeerLinkLaws.PanicStrands`), and by a guard dropped uncommitted outside
  a runtime, where `tokio::spawn` panics after the state was reset
  (`PeerLinkLaws.DropOutsideRuntimeStrands`).
  `PeerLinkLaws.RecoverableExactly`: a link can recover if and only if its run has no such fault.
- A panic inside `peer`, from the connector factory or from spawning outside a runtime, poisons the
  pool's mutex, and every later call of `peer` panics: `Pool.PanicPoisons`.
- The source's README speaks of a 6-bit type and of packets up to 65519 bytes; the code has a
  12-bit type and 65517 payload bytes, and the model follows the code.

## Model

| member | source | states |
|---|---|---|
| `PacketState.KindFromU8` | src/packet_state.rs:40-49 | 0 to 4 are Sole, First, Mid, Last and Abort, in that order and no others; any other value is reported as it is |
| `PacketState.HeaderBitLayout` | src/packet_state.rs:1-5 | the shifts and masks of the header are multiplication, division and remainder by 4096 |
| `PacketState.HeaderRoundTrip` | src/packet_state.rs:243-250 | decoding inverts encoding, and every packet that decodes is the encoding of what it decodes to |
| `PacketState.PacketBuilder.constructor` | src/packet_state.rs:93-100 | a new builder is idle |
| `PacketState.PacketBuilder.DoPrepare` | src/packet_state.rs:108-119 | the new state, and which of the two refusals applies first |
| `PacketState.PacketBuilder.DoPack` | src/packet_state.rs:133-150 | the packet is two header bytes, 16 times the kind's number plus the type's high nibble and then its low byte, and this payload alone; the kind is the one its position calls for; fails exactly when idle, changing nothing |
| `PacketState.PacketBuilder.DoAbort` | src/packet_state.rs:160-170 | the two bytes of an abort packet exactly when a message is in progress, even one with no packet sent |
| `PacketState.PacketReader.constructor` | src/packet_state.rs:221-223 | a new reader is idle with type zero |
| `PacketState.PacketReader.Read` | src/packet_state.rs:243-284 | for every byte string, told from its first two bytes and the reader's fields: which of the five errors, with which values, or which header and new fields; a refused packet changes nothing |
| `PacketProtocol.StepSimulated` | src/packet_state.rs:108-171 | one builder call and the reading of its packet keep the two state machines in step |
| `PacketProtocol.ExpectationsAccept` | src/packet_state.rs:160-170 | a run's packets are all accepted exactly when it contains no abort between `prepare` and the first packet; the only refusal is `MissingMessageStart` |
| `PacketProtocol.Simulation` | src/packet_state.rs:108-284 | over every interleaving of builder calls and in-order reads, once drained the machines are in step and the readings are those of the run |
| `PacketProtocol.ReaderLanguage` | src/packet_state.rs:243-284 | a fresh reader accepts exactly the prefixes of (Sole, or First Mid* then Last or Abort)* with one type per group, and is idle, and fresh again, exactly on whole words |
| `PacketProtocol.AcceptedIsReading` | src/packet_state.rs:243-284 | acceptance in the grammar theorem is what feeding the reader packet by packet reports |
| `Framing.FrameRoundTrip` | src/packets.rs:85-93 | a frame is read back, leaving exactly what follows, if and only if its body is at most 65535 bytes |
| `Framing.TakeJoined` | src/packets.rs:85-93 | reading k frames off a concatenation yields the first k bodies and leaves exactly the rest |
| `Framing.FrameBoundIsTight` | src/packet_state.rs:303-311 | a packet encrypts to a frame the prefix can describe exactly when its payload is within the limit, and the limit is attained |
| `Framing.ChunksLaw` | src/packets.rs:348-365 | chunks concatenate to the data, respect the limit, and number max(1, ceil(length / limit)) |
| `Framing.ChunksAreFullThenRemainder` | src/packets.rs:375-397 | the chunks of a slice are the full buffers of a stream followed by what is left in the buffer |
| `Framing.ReaderRefinesSlice` | src/packets.rs:367-400 | `send_reader` makes the builder calls of `send_slice`, the final one marked last exactly when the length is zero or not a multiple of the limit |
| `Framing.ReadPacketFramed` | src/packets.rs:291-304 | a packet that fits comes out of the stream as it went in, with the reader's verdict, and the counters stay together |
| `Packets.TransportState.WriteMessage` | src/packets.rs:338-341 | encrypts under the send counter and advances it, or refuses an oversized message without using the counter |
| `Packets.TransportState.ReadMessage` | src/packets.rs:296-299 | decrypts under the receive counter and advances it only on success |
| `Packets.ByteSource.Read` | src/packets.rs:383-387 | some of what remains, in pieces of any size; at the end zero bytes, or a failure exactly if the source is one that fails |
| `Packets.PacketTx.constructor` | src/packets.rs:178-183 | a new sending half has a fresh builder and has written nothing |
| `Packets.PacketTx.PrepareMessage` | src/packets.rs:323-325 | only the builder changes, and the error is the builder's |
| `Packets.PacketTx.WriteFrame` | src/packets.rs:330-345 | writes the big-endian length and this ciphertext alone, whatever earlier frames left in the grow-only buffer; an oversized packet writes nothing and uses no counter |
| `Packets.PacketTx.SendPacket` | src/packets.rs:327-346 | the three outcomes: refused by the builder, refused by the cipher after the builder moved on, or one frame written |
| `Packets.PacketTx.SendSlice` | src/packets.rs:348-365 | the bytes written are the frames of one packet per chunk, the final one carrying the caller's flag |
| `Packets.PacketTx.FlushIfFull` | src/packets.rs:376-381 | a full buffer goes out as a non-final packet and is emptied; otherwise nothing happens |
| `Packets.PacketTx.StreamTurn` | src/packets.rs:375-391 | one turn of the loop keeps content = sent + buffered + unread |
| `Packets.PacketTx.StreamFull` | src/packets.rs:371-391 | the loop ends with every full buffer sent and less than a buffer left, or with the source's error |
| `Packets.PacketTx.SendRest` | src/packets.rs:393-399 | what the loop leaves is closed with a final packet unless it is empty and something was sent |
| `Packets.PacketTx.SendReader` | src/packets.rs:367-400 | with a message in progress: `Ok` exactly if the source does not fail, all of it read, and the builder calls those of the whole content or, on failure, of its full packets; without one, nothing is sent and the exact error |
| `Packets.PacketTx.AbortMessage` | src/packets.rs:412-428 | an abort frame exactly when a message is in progress, else a no-op |
| `Packets.PacketRx.constructor` | src/packets.rs:184-191 | a new receiving half has a fresh reader and an empty payload whatever the inherited buffers hold |
| `Packets.PacketRx.TakeFrameInto` | src/packets.rs:85-93 | takes a frame exactly if the big-endian length is there and as many bytes behind it, and takes exactly those |
| `Packets.PacketRx.ReadNextPacket` | src/packets.rs:291-312 | state and result for every byte stream; after success the visible payload is this packet's and no stale bytes |
| `Messages.MessageTx.SendMessage` | src/messages.rs:62-68 | the whole message, or nothing with the builder's refusal |
| `Messages.MessageTx.SendReader` | src/messages.rs:75-82 | which of the two refusals, the source's failure or success, exactly; the streamed message, or its full packets on failure, or nothing |
| `Messages.MessageTx.AbortMessage` | src/messages.rs:94-96 | the effect of the packet layer's abort |
| `Messages.MessageRx.ReadMessage` | src/messages.rs:33-36 | the next packet, of any kind the reader accepts, opens the message |
| `Messages.MessageRx.ReadAllBytes` | src/messages.rs:131-153 | bytes, error or panic of the whole read, and the packets it consumes, for every byte stream |
| `Messages.MessagePackets.constructor` | src/messages.rs:159-165 | the iterator starts with the opening packet still to deliver |
| `Messages.MessagePackets.Next` | src/messages.rs:192-221 | the opening payload first, then one packet per call, and when the iteration ends |
| `Messages.FirstOtherDecides` | src/messages.rs:137-152 | behind any number of `Mid` packets, the first other packet or error decides: the bytes of all of them, `MessageAborted`, that very error, or a panic; nothing further is read |
| `Messages.ReadRestSafe` | src/messages.rs:137-152 | with a message open in the reader, no bytes make the read panic, and success or abort leaves the reader idle |
| `Messages.PanicExactly` | src/messages.rs:131-153 | reading panics if and only if the opening packet was `Last` or `Abort` and another packet decodes; never from an idle reader, which only opens with `Sole` or `First` |
| `Messages.IdleAfterMessage` | src/messages.rs:131-153 | from an idle reader, every read or aborted message leaves it idle, and a refused opening packet leaves it as it was |
| `Messages.EarlyDropPanics` | src/messages.rs:33-36 | a handle dropped after its first packet makes a later read panic |
| `Messages.EarlyDropTruncates` | src/messages.rs:33-36 | a handle dropped after its first packet makes the tail of its message pass for a message |
| `Messages.StreamingIsBuffering` | src/messages.rs:192-221 | draining packet by packet equals `read_bytes` on every opening packet and every byte stream: bytes, error or panic, and final state |
| `Messages.NextDoneForever` | src/messages.rs:192-213 | the iteration ends exactly with a final or aborting packet, and an ended one yields `None` for ever without reading; any other error leaves it going |
| `EndToEnd.ReceiverNeverCrashes` | src/messages.rs:131-153 | a receiver that starts idle, finishes or is told of each message's abort, and stops at errors inside one, never panics on any bytes |
| `EndToEnd.StepwiseRun` | src/packet_state.rs:108-284 | any observer that reports call by call, and stops at the last whole frame, reports exactly the events of a run |
| `EndToEnd.RunObserved` | src/packet_state.rs:108-284 | for every run of builder calls, the receiver of its encrypted frames reports the run's events |
| `EndToEnd.CallMeans` | src/messages.rs:62-96 | each interface call, as a run of builder calls, has the effect of one step of the reference channel |
| `EndToEnd.EndToEnd` | src/messages.rs:33-153 | for every run of `send_message`, `send_reader` and `abort_message`, the receiver of the bytes written observes exactly the reference channel's deliveries, aborts and refusals, in order |
| `EndToEnd.CompletedCallsDelivered` | src/messages.rs:58-82 | calls that complete are delivered one for one, in order, with type and bytes |
| `EndToEnd.StalledSenderIsDeaf` | src/packet_state.rs:112-114 | with a message left open, no later send is observed until an abort |
| `EndToEnd.StreamDelivery` | src/packets.rs:393-397 | a streamed message is delivered exactly when its length is zero or not a multiple of the limit; otherwise the receiver waits inside it whatever else is sent |
| `EndToEnd.StreamLeavesOpen` | src/packets.rs:393-397 | the builder is left in progress after a stream exactly when it gets no closing packet |
| `EndToEnd.SlicingIndependent` | src/packets.rs:348-365 | in the reference, any number of slices with the final one marked last is one message, their concatenation |
| `EndToEnd.SlicedMessageReceived` | src/packets.rs:348-365 | the same on the wire: the receiver sees one message with the concatenated payload |
| `EndToEnd.SlicePacketCount` | src/packets.rs:353-362 | a slice emits exactly max(1, ceil(length / limit)) packets |
| `AbortedCalls.StateAfter` | src/messages.rs:75-96 | the sender is idle exactly if no stream has stalled since the last abort, and has named a message without starting it exactly if the first stream to stall since then failed before its first packet |
| `AbortedCalls.AbortRefusedExactly` | src/messages.rs:84-96 | for any run of calls, the peer refuses some abort if and only if some abort finds such a message |
| `AbortedCalls.FailedStreamThenAbort` | src/packets.rs:412-428 | a failed stream and then an abort is observed as a refusal if fewer bytes than a packet were read, and as an abort otherwise |
| `Duplex.CutRunObserved` | src/packets.rs:291-304 | whatever first part of a run's bytes arrives, exactly some first part of the run is reported |
| `Duplex.CutStreamObserved` | src/messages.rs:131-153 | a stream cut at any byte is observed as a first part of the reference's reports and at most one unfinished message |
| `Duplex.TakeExtends` | src/packets.rs:291-304 | a packet that can be read is read the same whatever bytes come behind it |
| `Duplex.WayStepKeeps` | src/packets.rs:291-346 | every call, arrival and read keeps the receiver a reader of what has arrived of what the calls wrote |
| `Duplex.LiveObservation` | src/messages.rs:33-153 | at every moment of every interleaving in both directions: reported and still to come make up the reference exactly, what is reported is a first part of it, and once all is read all is reported |
| `Channel.StepSafe` | src/packets.rs:291-346 | every send, read or network interference keeps prefix delivery and genuine frames |
| `Channel.StepExact` | src/packets.rs:291-346 | without interference, frames on the way stay exactly the packets sent and not received |
| `Channel.AnyReplayPossible` | src/packets.rs:291-346 | the network considered may drop, repeat, reorder and reflect whatever was sent, and add junk |
| `Channel.ReadsDeliver` | src/packets.rs:291-304 | in order, reading k of the frames on the way receives exactly the next k packets |
| `Channel.ChannelSafety` | src/packets.rs:174-193 | over every interleaving of the four halves, each side has received a prefix of what the other sent, under any network; in order, counters differ by the frames on the way |
| `Handshake.AcceptExactly` | src/packets.rs:225-232 | `accept` completes exactly on a header signed with the cluster's key that declares the static key Noise authenticated, with that header's node id and role; otherwise it fails |
| `Handshake.ConnectExactly` | src/packets.rs:260-269 | `connect` sends message 3 exactly after such a header from the responder, and then completes with its node id and role, or fails if the write does |
| `Handshake.HonestSessionCompletes` | src/packets.rs:206-273 | from every reachable world, two nodes with issued headers can both complete, each with the other's node id and role |
| `Handshake.ConnectAuthenticates` | src/packets.rs:253-270 | `connect` returns the node id and role of a header issued by the cluster that declares the static key Noise authenticated |
| `Handshake.AcceptAuthenticates` | src/packets.rs:215-233 | the same for `accept` |
| `Handshake.ConnectReachesOwner` | src/packets.rs:259-263 | unless its private key leaked, the key in the responder's header belongs to an honest session that presented that header and was answering this initiator, so a stolen header is useless |
| `Handshake.AcceptImpliesValidated` | src/packets.rs:224-232 | unless the initiator's key leaked, `accept` completing means an honest initiator presented its own header and had already validated the very payload this responder sent |
| `Handshake.LeakedKeyPasses` | src/packets.rs:259-263 | that condition is exact: with the private key leaked, `connect` can complete as if with its owner while no owner takes part |
| `Handshake.LeakedKeyPassesAccept` | src/packets.rs:224-232 | and so can `accept` |
| `Handshake.ConnectSaysNothingOfAccept` | src/packets.rs:265-269 | from every reachable world, some run completes `connect` with the right details while the responder refuses the initiator's payload |
| `Handshake.TryConnectReachesTarget` | src/pool.rs:120-133 | after an attempt that passes the node id check, the header this session checked was issued to the target and declares the static key Noise authenticated; if that key has not leaked, the peer is the honest session that holds it, sent that payload and was answering this initiator |
| `Backoff.DelayStep` | src/pool.rs:113-114 | doubling with a cap walks the closed form, which never shrinks and stays within 50 ms and 30 s |
| `Backoff.DelaysLaw` | src/pool.rs:95-118 | the delays of any run of failures are 50 ms, then each twice the one before up to 30 s, and at most 30 s per failure in total |
| `Backoff.ReconnectDelays` | src/pool.rs:95-118 | one sleep per failure: 50 ms first, each then twice the one before up to 30 s; the k-th is min(50 * 2^k, 30000), in total at most 30 s per failure |
| `PeerLink.NewLinkInv` | src/pool.rs:80-90 | a new link is reconnecting, with one task about to make its first attempt and 50 ms to wait after it, and satisfies the invariant |
| `PeerLink.InstallKeeps` | src/pool.rs:105-106 | a task that installs finds the link reconnecting, so no live connection is overwritten |
| `PeerLink.NotifyReaches` | src/pool.rs:107-107 | every receiver already waiting can go on after the notification |
| `PeerLink.DropKeeps` | src/pool.rs:276-282 | the reset by a dropped guard keeps the invariant before the new task exists |
| `PeerLink.SpawnKeeps` | src/pool.rs:283-285 | so does spawning it while the lock is still held; the new task starts afresh with an attempt and 50 ms |
| `PeerLink.StepKeeps` | src/pool.rs:95-287 | every step of every actor, faults included, keeps the invariant: mutual exclusion, at most one reconnector and none while connected, waiters, identities, retired transports, backoff |
| `PeerLink.StepServes` | src/pool.rs:95-287 | a reconnecting link keeps somebody to reconnect it through every step but a fault, and has nobody after one |
| `PeerLinkLaws.ServedExactly` | src/pool.rs:95-118 | after any run, a link that is reconnecting has somebody to reconnect it if and only if the run has no fault |
| `PeerLinkLaws.SingleReconnector` | src/pool.rs:95-118 | whenever the lock is free, exactly one task is on its way if and only if the link is reconnecting and no fault has occurred, and otherwise none is |
| `PeerLinkLaws.InstallOnlyReconnecting` | src/pool.rs:105-106 | the state changes only under the lock, by an install into a gap or by the guard that holds it |
| `PeerLinkLaws.NoLostWakeup` | src/pool.rs:222-237 | a waiter asleep and not notified means, whenever the lock is free, that the link is still reconnecting, with one task on its way exactly if no fault has occurred |
| `PeerLinkLaws.AbandonSpares` | src/pool.rs:201-237 | a pending `acquire` or `wait_connected` may be abandoned wherever it waits, and nothing else changes |
| `PeerLinkLaws.GuardsExclusive` | src/pool.rs:256-266 | at most one guard exists, its link is connected to its transport, and the `unreachable!` is never reached |
| `PeerLinkLaws.GuardKeepsTransport` | src/pool.rs:201-211 | through any run of the others, a live guard's link stays connected to the same transport |
| `PeerLinkLaws.DroppedNeverReturns` | src/pool.rs:276-287 | the transport of a guard dropped uncommitted is never handed to a later guard |
| `PeerLinkLaws.OnlyDropDisconnects` | src/pool.rs:270-287 | a connected transport stays installed until some guard is dropped uncommitted |
| `PeerLinkLaws.CleanOnAcquire` | src/pool.rs:201-211 | if callers commit only between messages, every acquired guard has an idle builder and an idle reader |
| `PeerLinkLaws.CommitHandsOver` | src/pool.rs:268-272 | whatever others do between a commit and the next guard, that guard is handed exactly the state that was committed |
| `PeerLinkLaws.CommitThenAcquire` | src/pool.rs:201-211 | and such a guard can follow at once |
| `PeerLinkLaws.RecoverableExactly` | src/pool.rs:95-118 | from the end of a run some continuation connects the link, frees the lock and has notified every waiter if and only if the run has no fault; otherwise none even connects it |
| `PeerLinkLaws.PanicStrands` | src/pool.rs:95-99 | a connector's panic in the first attempt leaves the link with nobody to reconnect it |
| `PeerLinkLaws.DropOutsideRuntimeStrands` | src/pool.rs:276-287 | from every state before a fault, some guard can be handed out and dropped outside a runtime, leaving the lock free and nobody to reconnect |
| `PeerLinkLaws.StrandedForever` | src/pool.rs:201-237 | that lasts through every continuation, in which every `acquire` is refused and no waiter sees a connection |
| `Pool.PoolStepKeeps` | src/pool.rs:161-167 | a call of `peer`, panicking or not, or a step of a link keeps every link filed under its target, made once and never replaced |
| `Pool.PoolIdentity` | src/pool.rs:161-167 | in every reachable pool each peer has at most one link, the same in every later pool and no other peer's; no factory runs twice; all laws of links hold of it |
| `Pool.PeersExactly` | src/pool.rs:161-167 | after any run, a peer is there exactly if some call for it did not panic, and its factory has run exactly if some call for it was made, each before any panic poisoned the pool |
| `Pool.PanicPoisons` | src/pool.rs:161-167 | a pool is poisoned if and only if the first call for some peer panicked, and then never gains a peer |
| `AuthenticatedPool.ClusterStepKeeps` | src/pool.rs:120-133 | every step of the handshakes, the network and the pool keeps each held transport tied to a completed session of its own |
| `AuthenticatedPool.TransportsAuthenticated` | src/pool.rs:120-133 | in every reachable state, each transport ready, being installed, installed or guarded came from a session of its own that presented the local credentials and authenticated that very peer |
| `AuthenticatedPool.NewPeerConnects` | src/pool.rs:95-133 | from every state with an unpoisoned pool, some run gives it a new peer, connected through a session that authenticated it |
| `PoolObjects.RunSpares` | src/pool.rs:247-251 | nobody else can move an actor or, while it holds the lock, change anything the lock guards |
| `PoolObjects.Runtime.constructor` | src/pool.rs:80-90 | a new link is reconnecting with one task |
| `PoolObjects.Runtime.AwaitFree` | src/pool.rs:201-202 | whoever holds the mutex can let go of it, so a waiter for it can get it |
| `PoolObjects.Runtime.TryConnect` | src/pool.rs:120-133 | an attempt succeeds exactly with the target, and a failure goes to sleep with its delay |
| `PoolObjects.Runtime.InstallTransport` | src/pool.rs:104-108 | under any interference it overwrites `Reconnecting` and nothing else, notifies, and leaves its transport installed with the lock free |
| `PoolObjects.Runtime.ReconnectTask` | src/pool.rs:95-118 | under any interference: one sleep per failure with the closed form's delay; the first attempt that reaches the target is installed and wakes all sleepers; until then nobody else connects the link; a panic leaves nobody to |
| `PoolObjects.Runtime.Acquire` | src/pool.rs:201-211 | a guard exactly if the link was connected when the lock was held, with the target's transport; otherwise the lock is given back |
| `PoolObjects.Runtime.TransportOf` | src/pool.rs:256-266 | a guard always gets its own transport; the other arm cannot be taken |
| `PoolObjects.Runtime.Use` | src/pool.rs:253-266 | through any uses and any interference between them, the guard finds the halves exactly as it left them |
| `PoolObjects.Runtime.Commit` | src/pool.rs:268-272 | when the lock is released the link holds the transport exactly as last used |
| `PoolObjects.Runtime.Drop` | src/pool.rs:275-287 | when the lock is released the transport is retired and the link is reconnecting; outside a runtime nobody is left to reconnect it |
| `PoolObjects.Runtime.LookOnce` | src/pool.rs:225-231 | reports whether the link was connected when the lock was held, and otherwise goes to sleep on a notification captured before |
| `PoolObjects.Runtime.Poll` | src/pool.rs:232-235 | a sleeper that has been notified always wakes; one that has not times out exactly if it is late |
| `PoolObjects.Runtime.WaitConnected` | src/pool.rs:222-237 | success means the link was connected when it last looked; not ready means the timeout had passed when it gave up, not notified and with no connection announced; every notification sends it back to look |
| `PoolObjects.WaitingKeepsConnection` | src/pool.rs:222-237 | a call of `wait_connected` cannot cost a connection |
| `PoolObjects.ConnectionPool.GetPeer` | src/pool.rs:161-167 | a known peer gets its existing link and no factory call; a new one gets a new link and one call; it panics exactly if that call or spawn does, or if the pool is poisoned |

## Left out

- The cipher is a pair of functions with an inverse law and a 16-byte tag (symbolic terms in
  `Channel` and `Handshake`); the internals of Noise, X25519, AES-GCM, BLAKE2b and Ed25519 and the
  exhaustion of the 64-bit counter are not modelled.
- The record format behind signed headers is abstract: a payload is a signed header, another signed
  record, or bytes that do not verify.
- The buffers of the handshake's context object: the handshake is a transition system on values,
  because its laws are about many sessions and the network between them.
- Scheduling inside one indivisible section of the pool, and panics in the metrics and tracing
  libraries: a section either happens or does not.
- Real time: the handshake timeout may strike at any moment, and the timeout of `wait_connected` is
  counted in polls; nothing is claimed about how long anything takes.
- Failed or partial writes and cancellation inside one frame: a caller drops its guard uncommitted.
  The receiving side of it, a stream cut at any byte, is in `Duplex`.
- A hostile network is in `Channel` and `Handshake`, where ciphertexts are symbolic; `Duplex`, over
  the bytes themselves, has a network that delivers in order.
- Key types, hex and serde conversions, node id length checks, redaction, metrics, tracing, the TCP
  connector, and the wrappers of `src/lib.rs`: only easy members.
