# Kitsune device models, verified

Kitsune is a small virtual machine monitor for KVM. This project models the parts of it whose
correctness is hard to see from the code and proves what they promise, for every input and every run:

- **vsock** (`Wire` and the `Mux` and `Vsock` modules): the credit-based multiplexer between guest virtio-vsock
  streams and host Unix sockets. `MuxSpec` gives every handler as a function on states, and a run is any sequence
  of events: sockets becoming ready, guest packets, guest buffers, timeouts, transport resets. Host results
  (connects, reads, partial sends, the clock) are part of the events. `MuxInvariant` and `MuxRuns` prove the
  invariant for all runs; `MuxTheorems` (credit, streams, handshake), `MuxOrder` (host byte order), `MuxShutdown`
  (half-close and deadlines), `MuxClock` (deadlines against the clock), `MuxCredit`, `MuxBehind` and `MuxFlood`
  (announcements) state the laws; `MuxEffects` and `MuxEvents` say what single operations and events do, `MuxFlush`
  which of them flush.
  `MuxDevice` and `VsockDevice` are the objects that update their fields in place, up to a whole turn of the
  worker, and are proved to be runs.
- **virtio-net** (`NetTx`, `NetRx`, `NetDevice`): the TX and RX passes that hold at most one frame per direction.
- **virtio-blk** (`BlockDisk`, `BlockRequests`, `BlockRuns`): reads and writes through io_uring, O_DIRECT and
  buffered descriptors with their fallbacks, the request engine, its queue, and what runs of requests do to the disk.
- **workers** (`WorkerSlot`): the slot protocol under which device worker threads start and stop, over every
  interleaving of its atomic steps.
- **boot** (`PageTables`, `CpuTopology`): the identity map, against the 4-level page walk and access rights of
  sections 4.5 and 4.6 of the Intel SDM volume 3A, and the CPUID topology rewrite.

`Machine` holds fixed-width arithmetic. 32-bit counters wrap explicitly; each connection carries history
variables (unbounded counters, byte streams, marks) that no handler reads, and the laws relate the two.

Some properties one would expect are false of the code. Each is given with a run that shows it and with the
condition under which it holds:

- A half-closed connection can be without a deadline: completing a pending connect clears it, and a guest that
  stops receiving sets none (`DeadlineCanBeLost`, `GuestShutdownHasNoDeadline`). Exactly when:
  `DeadlineLaw`, `HalfClosedWithoutDeadline`.
- A host whose connection the guest accepts may never read its OK line: a guest that says it is done sending
  before it answers gets the socket shut for writing, and the kernel then refuses the line
  (`OkLineCanBeLost`). Exactly when, on a kernel that refuses sends on a shut socket: `WrittenAfterShut`,
  `AnsweredAfterShut`.
- Host bytes can reach the guest out of order or be discarded: a CREDIT_UPDATE does not re-send the stash, so
  newer bytes overtake it, and the stash is bounded (`BytesCanBeOvertaken`). Exactly when:
  `IngestInOrderExactly`, `HostBytesInOrder`.
- A credit announcement can be missed once 2^32 bytes went unannounced, which takes a guest that ignores the
  announced buffer (`AnnouncementCanBeMissed`, `PoliteKeepsUp`). Exactly when: `MaybeCreditExact`,
  `BehindExactly`, `BehindOverRuns`.
- The disk need not be the fold of its permitted writes once one failed (`TornWrite`). What it is then,
  byte by byte and exactly: `ByteIsPossible`, `PossibleIsReal`, `PossibleExactly`, `RunIsFold`.
- The head of a held TX frame can be completed in a ring it was never put in, if the driver resets the device and
  sets it up again between two passes (`HeadCanLeak`). Exactly when: `LeakExactly`, `LeakedOverRuns`.
- A thread can wait for a worker nobody asked to stop: a start under way clears the stop flag after the
  request (`StopCanBeLost`). Exactly when: `StopSeen`, `RequestReaches`.

`dafny verify dfyconfig.toml` checks everything.

## Model

| member | source | states |
|---|---|---|
| `Wire.ParseSerialize` | src/devices/vsock_mux.rs:57-113 | Parsing a header undoes writing it, for every header. |
| `Wire.SerializeParse` | src/devices/vsock_mux.rs:57-113 | Every 44-byte header is the bytes of exactly one header value: writing undoes parsing. |
| `Wire.SerializeTiles` | src/devices/vsock_mux.rs:100-113 | The ten fields, written one by one at their offsets, tile the 44 bytes without gap or overlap. |
| `Wire.LeRoundTrip` | src/devices/vsock_mux.rs:57-113 | Little-endian coding of any value that fits n bytes is undone by decoding. |
| `Wire.ParseConnectAccepts` | src/devices/vsock_mux.rs:844-851 | A CONNECT line yields a port if and only if it is the prefix and the decimal digits of a number in 1..2^32-1. |
| `Wire.ParseConnectInvertsPrinting` | src/devices/vsock_mux.rs:844-851 | Printing a port and parsing the line gives it back; port 0 is refused. |
| `Wire.OkLineFormat` | src/devices/vsock_mux.rs:456-467 | The OK line is `OK `, the decimal digits of the host port without leading zeros, and a newline. |
| `Wire.LinePort` | src/devices/vsock_mux.rs:562-575 | A line names a port if and only if it is the prefix and the digits of that port, with or without one carriage return at the end. |
| `MuxRuns.StepKeeps` | src/devices/vsock_mux.rs:310-825 | Every event, from any state with the invariant, keeps it, and each connection afterwards is new or a legitimate continuation of the one before. |
| `MuxRuns.RunKeeps` | src/devices/vsock_mux.rs:310-825 | So does every run. |
| `MuxTheorems.CreditSafety` | src/devices/vsock_mux.rs:169-172 | For every run, every flow whose packets keep the credit rules, whatever the guest sends on other flows: queued plus delivered-but-unforwarded bytes never exceed the granted buffer, and the 32-bit `peer_avail` is exact across any number of wrap-arounds. |
| `MuxTheorems.ConnCreditSafety` | src/devices/vsock_mux.rs:169-172 | The same for a single connection judged by its own headers. |
| `MuxTheorems.UnwrapExact` | src/devices/vsock_mux.rs:398-401 | The guest's unbounded forward counter is recovered from the 32-bit field alone. |
| `MuxTheorems.HonestRunKeeps` | src/devices/vsock_mux.rs:374-417 | A flow whose packets keep the rules one by one is judged honest at every point of the run. |
| `MuxTheorems.Appears` | src/devices/vsock_mux.rs:419-454 | A connection appears only in reading a host's CONNECT line or by a guest REQUEST on its flow, with nothing taken or announced. |
| `MuxTheorems.HostToGuestStream` | src/devices/vsock_mux.rs:618-653 | In every reachable state the delivered bytes followed by the queued packets are the bytes put into packets, in order, and `sent_to_guest` is their number modulo 2^32. |
| `MuxTheorems.DeliverConserves` | src/devices/virtio_vsock.rs:319-394 | One delivery into a buffer of any size leaves every flow's delivered-then-queued stream unchanged. |
| `MuxTheorems.PushRxConserves` | src/devices/virtio_vsock.rs:319-394 | So does `push_rx` over any list of buffer sizes: fragmentation neither loses, repeats nor reorders a byte. |
| `MuxTheorems.PushRxKeeps` | src/devices/virtio_vsock.rs:319-394 | Used lengths stay within their buffers, untouched buffers stay in the ring, the invariant holds on. |
| `MuxTheorems.PushRxUsed` | src/devices/virtio_vsock.rs:319-394 | The used lengths are those of the delivered packets in order, then at most one zero. |
| `MuxOrder.IngestInOrderExactly` | src/devices/vsock_mux.rs:618-662 | Reading n host bytes appends them to the stream, whatever they are, if and only if nothing stashed can be overtaken and what has no credit fits the stash. |
| `MuxOrder.HostBytesInOrder` | src/devices/vsock_mux.rs:593-723 | End to end between any two points of a connection's life: every byte queued or stashed is the source byte its tag names; the tags are 0, 1, 2 and so on without gap if and only if every read in between was in order, so one that was not is never made good; and then delivered, queued and stashed bytes are together exactly the source. |
| `MuxOrder.StepReads` | src/devices/vsock_mux.rs:310-343 | Each event takes exactly the bytes it read, a prefix within the credit, the next part stashed, and otherwise only moves stashed bytes on in order. |
| `MuxOrder.BytesCanBeOvertaken` | src/devices/vsock_mux.rs:414-414 | Without the condition order is lost: after a CREDIT_UPDATE a newer byte is queued ahead of a stashed one. |
| `MuxTheorems.GuestToHostStream` | src/devices/vsock_mux.rs:485-505 | In every reachable state, under any partial sends and errors: bytes the host socket took, then pending ones, are the OK line (if due) followed by the accepted guest bytes; the held part is at most BUF_ALLOC and equals received minus forwarded modulo 2^32. |
| `MuxTheorems.AnnouncementsKeepUp` | src/devices/vsock_mux.rs:725-759 | While receiving, a CREDIT_UPDATE is queued or fewer than max(buf_alloc/4, 4096) forwarded bytes are missing from the last delivered header, as long as fewer than 2^32 bytes went unannounced. |
| `MuxCredit.PoliteKeepsUp` | src/devices/vsock_mux.rs:725-759 | For a connection whose guest never sent past the buffer its last header announced, that holds in every reachable state without the proviso: the unannounced bytes stay within seven buffers. |
| `MuxCredit.PoliteRunKeeps` | src/devices/vsock_mux.rs:485-505 | A guest that stays within the announced buffer packet by packet has only such connections on the flow. |
| `MuxCredit.CtrlLength` | src/devices/vsock_mux.rs:798-810 | At most six control packets of one connection are queued at a time. |
| `MuxBehind.MaybeCreditExact` | src/devices/vsock_mux.rs:725-745 | After `maybe_credit` an update is queued or little is missing from the last delivered header if and only if that was so before or the forwarded bytes since the last announcement, modulo 2^32, reach the threshold. |
| `MuxBehind.BehindExactly` | src/devices/vsock_mux.rs:691-759 | For every event from any state with the invariant: the connection is behind afterwards (receiving, no update queued, a threshold of bytes missing from the last header) if and only if the event flushes it, gets all bytes out, and their number is overlooked modulo 2^32; or it was behind and the event neither tells the guest, flushes, ends its receiving nor ends it. |
| `MuxBehind.BehindOverRuns` | src/devices/vsock_mux.rs:691-759 | So in every reachable state a connection is behind if and only if some flush overlooked it and no later event made up for it. |
| `MuxFlush.FlushedStep` | src/devices/vsock_mux.rs:691-723 | A RESPONSE the connection waits for, a SHUTDOWN, data within the free space and a writable connected socket are a flush of the connection as it then stands; nothing on the host's side happens before it. |
| `MuxFlood.AnnouncementCanBeMissed` | src/devices/vsock_mux.rs:725-745 | The proviso is needed: a guest that sends 2^32 bytes without taking the queued update, then takes it and sends once more, leaves a quarter of the buffer unannounced with no update queued. |
| `MuxTheorems.QueueLaws` | src/devices/vsock_mux.rs:798-810 | In every reachable state: control packets carry no data, data packets 1 to MAX_CHUNK bytes, only RST outlives its connection, and RST, CREDIT_UPDATE and CREDIT_REQUEST are queued at most once per flow. |
| `MuxTheorems.HandshakeLaws` | src/devices/vsock_mux.rs:419-467 | Waiting connections have moved no byte and have a deadline; REQUEST and RESPONSE are each sent once, and no data precedes REQUEST. |
| `MuxTheorems.LeavesWaitingOnlyByResponse` | src/devices/vsock_mux.rs:456-467 | Only a RESPONSE on its own flow takes a connection out of the waiting phase. |
| `MuxTheorems.HalfCloseOverRuns` | src/devices/vsock_mux.rs:761-787 | Between any two points of a connection's life flags only rise, nothing is queued after sending is shut and nothing accepted after receiving is. |
| `MuxShutdown.HalfCloseLaws` | src/devices/vsock_mux.rs:691-787 | Each SHUTDOWN bit is announced at most once over the whole run, and a sending side shut without announcement was shut by the guest; SHUT_WR is issued once, when what the socket took already ends with every guest byte ever accepted. |
| `MuxShutdown.WrittenAfterShut` | src/devices/vsock_mux.rs:691-706 | In every reachable state what the host socket took is what it had taken at SHUT_WR: always if that was issued after the handshake, and in every case in runs in which a socket shut for writing refuses sends. If it was issued before, no guest byte was accepted; once answered, the whole OK line is pending in such runs and both directions are shut. |
| `MuxShutdown.FrozenAfterShut` | src/devices/vsock_mux.rs:691-706 | So between any two later points of such a run the written stream is frozen. |
| `MuxShutdown.AnsweredAfterShut` | src/devices/vsock_mux.rs:456-467 | A RESPONSE that finds the socket shut for writing, from any state with the invariant: the connection is established, no byte of the OK line goes out, both directions are shut, under a deadline. |
| `MuxShutdown.OkLineCanBeLost` | src/devices/vsock_mux.rs:456-483 | A run from the start that shows it, on a kernel that refuses: a host connects, the guest says SHUTDOWN(SEND), then RESPONSE. |
| `MuxShutdown.HostWaits` | src/devices/vsock_mux.rs:538-591 | A host that connects has a waiting connection whose socket is not shut. |
| `MuxShutdown.ShutdownRecorded` | src/devices/vsock_mux.rs:469-483 | A guest SHUTDOWN, before or after the handshake, records exactly its bits, stops sending when the guest stops receiving, shuts the host socket for writing once the guest bytes are out, and sets no deadline unless its flush fails. |
| `MuxShutdown.DeadlineLaw` | src/devices/vsock_mux.rs:675-689 | Deadlines in every reachable state: before any SHUTDOWN is announced exactly the waiting and the connecting have one; afterwards a connection has one if and only if no pending connect completed since the last announcement. |
| `MuxShutdown.HalfClosedWithoutDeadline` | src/devices/vsock_mux.rs:761-787 | A half-closed, connected connection lacks a deadline exactly in two cases: its connect completed after the last announcement, or nothing was announced because the guest itself stopped receiving. |
| `MuxShutdown.SinceLastAnnouncement` | src/devices/vsock_mux.rs:675-689 | Only completing a pending connect sets that mark and only an announcement clears it. |
| `MuxShutdown.DeadlineCanBeLost` | src/devices/vsock_mux.rs:675-689 | A three-event run of the first case. |
| `MuxShutdown.GuestShutdownHasNoDeadline` | src/devices/vsock_mux.rs:469-483 | A two-event run of the second case. |
| `MuxTheorems.PortLaws` | src/devices/vsock_mux.rs:812-825 | Host-initiated connections never share a host port; the cursor stays in range. |
| `MuxPorts.AllocPortFinds` | src/devices/vsock_mux.rs:812-825 | The allocator returns the first free port in cyclic order from the cursor, or none after 60000 live ones. |
| `MuxPorts.AllocFailsOnlyWhenCrowded` | src/devices/vsock_mux.rs:812-825 | It fails if and only if all 60000 ports tried are live, hence only with at least 60000 live ports. |
| `MuxRuns.AllocatedFlowIsNew` | src/devices/vsock_mux.rs:575-585 | An allocated port always makes a new flow, so the collision branch is never taken. |
| `MuxRuns.NoneOverdue` | src/devices/vsock_mux.rs:345-355 | After a timeout check every deadline left is later than the time of the check, and no connection was dropped early. |
| `MuxClock.GuestTxOnTime` | src/devices/vsock_mux.rs:374-417 | A guest packet handled at or after a time makes no connection overdue at that time. |
| `MuxClock.RunOnTime` | src/devices/virtio_vsock.rs:237-262 | So driving the queues leaves none overdue. |
| `MuxEffects.IngestConserves` | src/devices/vsock_mux.rs:618-662 | `ingest` splits its bytes in order into queued (up to the credit), stashed and, only once the stash is full, discarded; one CREDIT_REQUEST is added exactly when the credit ran out and none was queued, and no other control packet. |
| `MuxEffects.FlushConserves` | src/devices/vsock_mux.rs:691-723 | Flushing loses no stashed byte. Success leaves nothing pending, the socket shut for writing if the guest is done, and a stash only while sending is shut or the credit is used up; an error shuts both directions. |
| `MuxEffects.RwAllOrNothing` | src/devices/vsock_mux.rs:485-505 | A data packet is accepted whole if and only if it fits the free space; otherwise the connection ends with one RST and nothing else queued. |
| `MuxEffects.ResponseEstablishes` | src/devices/vsock_mux.rs:456-467 | A RESPONSE establishes the connection; the OK line is written or still pending, whole. |
| `MuxEffects.RequestOpensOrResets` | src/devices/vsock_mux.rs:419-454 | A REQUEST opens exactly one connection, with the credit the guest announced and a deadline while its connect is pending, or is refused with a RST; on a live flow it ends that connection. |
| `MuxEffects.StrayPackets` | src/devices/vsock_mux.rs:375-397 | Packets with foreign CIDs are ignored; unknown flows and types are answered by exactly one RST, a RST by nothing. |
| `MuxEffects.HostEofShutsSend` | src/devices/vsock_mux.rs:606-616 | Host end-of-file drops an unanswered connection with a RST, otherwise shuts the send side once, with a deadline. |
| `MuxEffects.ConnectLineOpens` | src/devices/vsock_mux.rs:538-591 | A complete line opens a fresh flow to the port it names, both line endings alike, keeping the bytes after the line; any other line opens nothing. |
| `MuxEffects.LineInPieces` | src/devices/vsock_mux.rs:538-560 | How a CONNECT line is cut into reads does not matter within the 64-byte limit. |
| `MuxEffects.BrokenSocketShuts` | src/devices/vsock_mux.rs:601-603 | A socket error shuts both directions of an established connection and resets an unanswered one. |
| `MuxEffects.LivePackets` | src/devices/vsock_mux.rs:398-416 | On a live flow RST removes silently, oversized RW resets, CREDIT_REQUEST gets its update, other packets only leave their credit fields. |
| `MuxEffects.ChainExactly` | src/devices/virtio_vsock.rs:264-317 | A chain is a header in 44 bytes and the payload its length names, and no more; a header that announces over 64 KiB, or more than there is, names the flow to reset. |
| `MuxEffects.ChainForms` | src/devices/virtio_vsock.rs:280-292 | Every chain of at least 44 bytes is of that form; a shorter one is dropped. |
| `MuxEffects.ChainTaken` | src/devices/virtio_vsock.rs:299-315 | A data packet of this guest on a flow that is receiving and has room adds exactly the bytes after its header to the stream of that flow. |
| `MuxEffects.DamagedChainResets` | src/devices/virtio_vsock.rs:264-317 | A chain that does not match its header ends the connection it names with one RST. |
| `MuxEffects.DeliveredHeaderCovers` | src/devices/virtio_vsock.rs:319-394 | A delivered header carries the exact forward count and buffer size of its connection. |
| `MuxEvents.AcceptsExactly` | src/devices/vsock_mux.rs:507-536 | A host socket is accepted if and only if fewer than 128 are open. |
| `MuxEvents.IncomingBounded` | src/devices/vsock_mux.rs:507-560 | So at most 128 sockets that have not named a port are held in any run. |
| `MuxEvents.LineGoesOn` | src/devices/vsock_mux.rs:538-560 | Bytes without a newline are kept up to 64 in all; more close the socket, and nothing else happens. |
| `MuxEvents.LineEnds` | src/devices/vsock_mux.rs:538-560 | End of file and errors close a socket that has not named its port; a read to be repeated changes nothing. |
| `MuxEvents.ConnectCompletes` | src/devices/vsock_mux.rs:675-689 | A pending connect ends with the first writable event: with one RESPONSE and no deadline, or with the connection replaced by one RST. |
| `MuxEvents.CreditNoted` | src/devices/vsock_mux.rs:398-401 | Every packet on a flow that it leaves alive has its buffer size and forward count recorded. |
| `MuxEvents.IdlePackets` | src/devices/vsock_mux.rs:456-495 | A RESPONSE nobody waits for, empty data, and data on a flow that is not receiving change nothing else. |
| `MuxEvents.TimeoutResets` | src/devices/vsock_mux.rs:345-355 | A connection past its deadline ends with one RST and nothing else queued; any other stays as it is. |
| `MuxEvents.DeliveredPacket` | src/devices/virtio_vsock.rs:319-394 | The packet written into a guest buffer is as much of the front packet as fits, under a header from host to guest that says so; parsed as a chain it is that packet again. |
| `MuxEvents.FillsExactly` | src/devices/virtio_vsock.rs:319-394 | A guest buffer gets a packet if and only if one is queued and the 44 bytes of a header fit. |
| `MuxEvents.PushRxStops` | src/devices/virtio_vsock.rs:319-394 | `push_rx` goes on until the packets or the buffers run out or a buffer is too small for a header; that one alone is given back empty and ends it. |
| `MuxEvents.WireCarries` | src/devices/virtio_vsock.rs:319-394 | Between any two points of a connection's life, the data packets the guest received on the flow are exactly the bytes its history counts as delivered. |
| `MuxDevice.FlushOkLoop` | src/devices/vsock_mux.rs:857-870 | The loop computes the specified partial-send outcome; it succeeds if and only if the OK line is all out. |
| `MuxDevice.FlushToHostLoop` | src/devices/vsock_mux.rs:872-888 | Likewise for the guest data, with the forward counter advanced per send. |
| `MuxDevice.IngestUnroll` | src/devices/vsock_mux.rs:620-652 | One iteration of the chunk loop followed by the whole-batch effect is the whole-batch effect. |
| `MuxDevice.Mux.constructor` | src/devices/vsock_mux.rs:243-252 | A new multiplexer is the initial state of the runs. |
| `MuxDevice.Mux.IngestBytes` | src/devices/vsock_mux.rs:618-653 | The chunk loop refines the one-shot split of the data. |
| `MuxDevice.Mux.Flush` | src/devices/vsock_mux.rs:691-723 | In-place flush refines the transition on values. |
| `MuxDevice.Mux.HandlePacket` | src/devices/vsock_mux.rs:374-417 | Handling a guest packet keeps the invariant of all connections and changes each only as a lawful continuation. |
| `MuxDevice.Mux.OnFd` | src/devices/vsock_mux.rs:310-343 | A ready socket of any kind is one step of a run and keeps the invariant. |
| `MuxDevice.Mux.ShutLocal` | src/devices/vsock_mux.rs:761-787 | Half-close by the host side; only newly raised bits are announced. |
| `MuxDevice.Mux.TakePort` | src/devices/vsock_mux.rs:812-825 | The search loop computes the first free port and moves the cursor past it. |
| `MuxDevice.Mux.CheckTimeouts` | src/devices/vsock_mux.rs:345-355 | Drops exactly the connections past their deadline, leaves none, keeps every other as it was, and keeps the invariant. |
| `VsockDevice.PushRxIsRun` | src/devices/virtio_vsock.rs:319-394 | `push_rx` is a run of single deliveries, so all run theorems cover it. |
| `VsockDevice.PopPush` | src/devices/vsock_mux.rs:263-275 | Putting back an unused packet restores the queues exactly. |
| `VsockDevice.Vsock.PullTx` | src/devices/virtio_vsock.rs:264-317 | The TX loop is the run of its chains, one used length each; each welcome data packet adds exactly its payload, the bytes after its header, to its flow. |
| `VsockDevice.Vsock.FillBuffer` | src/devices/virtio_vsock.rs:319-394 | One RX buffer: split, put back what does not fit, stamp the header; keeps the invariant. |
| `VsockDevice.Vsock.FillRx` | src/devices/virtio_vsock.rs:319-394 | The RX loop refines `push_rx` on values. |
| `VsockDevice.Vsock.PushResetEvent` | src/devices/virtio_vsock.rs:396-424 | An event buffer is consumed if there is one; the event is written only if 4 bytes fit. |
| `VsockDevice.Vsock.Drive` | src/devices/virtio_vsock.rs:237-262 | One drive of the device is a run of the multiplexer; a queue reset kills connections and owes one reset event; the interrupt is raised if and only if something was used. |
| `VsockDevice.Vsock.HandleReady` | src/devices/virtio_vsock.rs:224-228 | The ready sockets one after another are a run. |
| `VsockDevice.Vsock.Turn` | src/devices/virtio_vsock.rs:220-233 | One turn of the worker is a run of the multiplexer, keeps its invariant, and leaves no connection past its deadline as of the time it looked. |
| `PageTables.SetupIdentityMap` | src/vcpu.rs:349-411 | Succeeds if and only if the size is acceptable and the tables fit; touches only the table area; afterwards the 4-level page walk maps every address of the low 512 GiB below the RAM end rounded up to 2 MiB to itself, writable, supervisor-only and write-back with no reserved bit set, and faults above it, whatever memory held before. |
| `PageTables.WalkIsIdentity` | src/vcpu.rs:349-411 | Memory holding the written tables translates exactly so, access rights included. |
| `PageTables.ValidatedSizes` | src/memory.rs:19-34 | Every size that passes validation is accepted by the mapper, and the tables fit if there is room for one directory. |
| `PageTables.BitOrDisjoint` | src/vcpu.rs:380-396 | OR-ing flags below the alignment of an address is adding them. |
| `PageTables.FillDirectory` | src/vcpu.rs:391-402 | One directory: 512 entries, mapped ones then zeros. |
| `PageTables.FillDirectories` | src/vcpu.rs:383-403 | All directories with their pointer entries. |
| `PageTables.ClearRest` | src/vcpu.rs:405-408 | The remaining pointer entries are cleared. |
| `PageTables.GuestMemory.Write` | src/vcpu.rs:349-411 | A checked 8-byte write: done whole or refused, by the end of RAM. |
| `CpuTopology.AppliedLaws` | src/vcpu.rs:91-197 | For every entry list: the rewrite is idempotent, leaf 0xB subleaves 0 and 1 exist, leaf 0x1F is an exact in-order copy of 0xB if it existed, all other entries keep their order, and those of leaves the topology does not concern are exactly the input's. |
| `CpuTopology.AppliedEntries` | src/vcpu.rs:91-182 | Entry by entry, on the bits: only the first leaf-0 entry is raised to 0xB; leaf 1 keeps its brand index and all feature bits but two; leaf 4 keeps its low 14 bits and other registers, and subleaves of other levels altogether; leaf 0x8000_0008 changes two fields, leaf 0x8000_001E three registers; every other leaf is untouched. |
| `CpuTopology.LevelEntries` | src/vcpu.rs:104-153 | Leaf 0xB keeps its subleaves in order, followed by those of levels 0 and 1 that were missing, each fully determined by its level, the id and the vCPU count. |
| `CpuTopology.ApicIdsAgree` | src/vcpu.rs:112-182 | Leaf 1 and leaf 0xB report the same APIC id, below the package shift; processor counts, HTT, hypervisor bit and level types are as the vCPU count says. |
| `CpuTopology.OtherLeavesAgree` | src/vcpu.rs:112-182 | Cache sharing and AMD core counts agree with the vCPU count. |
| `CpuTopology.TopologyTwice` | src/vcpu.rs:91-197 | Idempotence for any per-entry rewrite that is itself idempotent and keeps leaf and index. |
| `CpuTopology.RewriteTwice` | src/vcpu.rs:112-182 | The register rewrite is idempotent on every entry. |
| `CpuTopology.ApplyTopology` | src/vcpu.rs:91-197 | The in-place passes compute the rewrite the laws speak of; the entries it does not concern are untouched, and the others change only on the bits of the topology. |
| `CpuTopology.AddSubleaf` | src/vcpu.rs:72-89 | Adds the subleaf at the end unless it is there. |
| `CpuTopology.RaiseEntries` | src/vcpu.rs:99-103 | Raises the first leaf-0 entry to 0xB at least, changing nothing else. |
| `CpuTopology.RewriteEntries` | src/vcpu.rs:112-182 | Rewrites every entry, in place. |
| `CpuTopology.MirrorEntries` | src/vcpu.rs:185-196 | Replaces leaf 0x1F by copies of 0xB, if it was there. |
| `NetDevice.TxExactlyOnce` | src/devices/virtio_net.rs:388-489 | For every run, since the TX queue was last set up: completed heads are the popped heads in order except at most one held; the frames the TAP was sent are those whose final answer was that it took them, in order, as many as such answers; none twice, none before completion; the held frame is intact in the scratch buffer. A frame held when the queue was set up counts as popped first. |
| `NetTx.SentExactly` | src/devices/virtio_net.rs:419-487 | A completed frame reached the TAP if and only if it could be read, holds a header, and the final answer in its place was that the TAP took it. |
| `NetTx.ProcessTxTells` | src/devices/virtio_net.rs:405-489 | A pass takes the TAP's answers in turn, goes on only after a frame was taken, holds a frame if and only if the last answer was "busy", and fails if and only if the last answer was an error or the last chain could not be read. |
| `NetDevice.RxOneFate` | src/devices/virtio_net.rs:491-606 | For every run: the frames are the TAP's answers of at least 12 bytes, in order; each has one fate in order; it is dropped after a non-empty stretch of popped chains, all too small, with none left in the ring, or because the queue is down, and of the latter there are exactly as many as passes that found a frame held and the queue not ready; every popped chain is returned once, filled exactly for deliveries. |
| `NetDevice.AlwaysReady` | src/devices/virtio_net.rs:491-500 | So a worker that always finds its RX queue ready drops frames for want of buffers only. |
| `NetRx.ProcessRxReads` | src/devices/virtio_net.rs:491-535 | A pass reads the TAP if and only if the queue is ready and no frame stays held, and then up to the first empty answer or error or the frame it has to hold; otherwise it reads nothing. It fails if and only if the last answer was an error. |
| `NetDevice.LeakExactly` | src/devices/virtio_net.rs:405-436 | When a held frame becomes one of another ring, and when its head is completed in the new one: a ready pass in which the TAP is not busy, before any pass saw the queue down. |
| `NetDevice.LeakedOverRuns` | src/devices/virtio_net.rs:410-436 | So after any run a ring was given back a foreign head if and only if it was set up with a frame held and the first pass to get the frame off found it ready, none having seen it down. |
| `NetDevice.HeadCanLeak` | src/devices/virtio_net.rs:410-436 | A four-event run in which it happens. |
| `NetTx.ProcessTxKeeps` | src/devices/virtio_net.rs:405-489 | The used flag is true if and only if a descriptor was completed, on error paths too; a busy TAP leaves the held frame alone; a clean pass empties the ring. |
| `NetRx.ProcessRxKeeps` | src/devices/virtio_net.rs:491-535 | The used flag is true if and only if a chain was returned; a held frame with an empty ring changes nothing, so the TAP is not read over it. |
| `NetRx.FlushDecides` | src/devices/virtio_net.rs:542-606 | Closed form of the delivery loop: smaller chains are returned empty, the first large enough one takes the frame, otherwise hold (empty ring) or drop. |
| `NetDevice.RunKeeps` | src/devices/virtio_net.rs:324-358 | Both invariants hold after every run of offers, work passes and queues set up anew. |
| `NetDevice.NetState.SendChains` | src/devices/virtio_net.rs:438-487 | The TX loop refines the transition on values. |
| `NetDevice.NetState.RunTx` | src/devices/virtio_net.rs:405-489 | The whole TX pass with its held frame. |
| `NetDevice.NetState.ProcessTxQueue` | src/devices/virtio_net.rs:405-489 | The TX pass keeps the invariant and reports completions truthfully. |
| `NetDevice.NetState.FlushPendingRx` | src/devices/virtio_net.rs:542-606 | The delivery loop refines the transition on values. |
| `NetDevice.NetState.ReadFrames` | src/devices/virtio_net.rs:513-533 | The TAP reading loop refines the transition on values. |
| `NetDevice.NetState.ProcessRxQueue` | src/devices/virtio_net.rs:491-535 | The RX pass keeps the invariant and reports returned chains truthfully. |
| `NetDevice.NetState.RenewQueues` | src/devices/virtio_mmio.rs:173-183 | A device reset with the queues set up again keeps the invariants; the device forgets the rings and nothing else. |
| `NetDevice.NetState.ProcessOnce` | src/devices/virtio_net.rs:324-358 | One work pass: the interrupt is raised if and only if either queue gained a used descriptor, also when a direction failed; an error of either direction is reported. |
| `WorkerSlot.ProtocolLaws` | src/devices/virtio_dev.rs:12-147 | Under every interleaving by any threads: the slot is starting if and only if one uncommitted reservation exists; committed handles are the taken ones followed by the one in the slot, none twice; at most one worker is not joined, and its handle is in the slot or with a thread about to commit or join it; the disk is in exactly one place, with an owner about to move it on unless it is home. |
| `WorkerSlot.DiskComesHome` | src/devices/virtio_blk.rs:244-308 | So whenever no thread is starting or stopping and no worker is held, the disk is back for the next start. |
| `WorkerSlot.TakeWaits` | src/devices/virtio_dev.rs:134-147 | A round of `take_worker` ends with the running worker, with another round if and only if a start is under way, and with nothing only if there is neither. |
| `WorkerSlot.StopSeen` | src/devices/virtio_dev.rs:114-132 | Under every interleaving: a worker not joined yet finds the stop flag set if and only if a stop was requested after its start cleared the flag. |
| `WorkerSlot.RequestReaches` | src/devices/virtio_dev.rs:129-132 | A request reaches every worker not joined yet, and of the starts under way exactly those past `clear_stop`. |
| `WorkerSlot.StopCanBeLost` | src/devices/virtio_blk.rs:244-308 | From any state in which a start can begin, an interleaving leaves a thread joining a worker nobody asked to stop. |
| `WorkerSlot.StepKeeps` | src/devices/virtio_blk.rs:244-308 | Each atomic step of starting and stopping a worker keeps the protocol invariant. |
| `WorkerSlot.WorkerCell.Reserve` | src/devices/virtio_dev.rs:118-127 | Is a step of the protocol and keeps its invariant; granted if and only if no start is under way and no worker is held. |
| `WorkerSlot.WorkerCell.Commit` | src/devices/virtio_dev.rs:23-29 | Likewise; the slot was still held for this start, so no handle is overwritten, and this one was not committed before. |
| `WorkerSlot.WorkerCell.DropReservation` | src/devices/virtio_dev.rs:31-41 | Likewise; an uncommitted reservation leaves an idle slot and no start under way, a committed one changes nothing. |
| `WorkerSlot.WorkerCell.ClearStop` | src/devices/virtio_dev.rs:114-116 | Likewise; no request made so far concerns the worker about to be spawned. |
| `WorkerSlot.WorkerCell.RequestStop` | src/devices/virtio_dev.rs:129-132 | Likewise; every worker not joined yet is asked. |
| `WorkerSlot.WorkerCell.TakeOnce` | src/devices/virtio_dev.rs:134-147 | Likewise; a handle taken was never taken before and none is left behind; another round is asked for if and only if a start is under way. |
| `BlockDisk.Disk.Ensure` | src/devices/virtio_blk.rs:108-125 | Growing the buffer keeps its contents; failure changes nothing. |
| `BlockDisk.Disk.ZeroScratch` | src/devices/virtio_blk.rs:668-671 | The first bytes asked for are zero. |
| `BlockDisk.Disk.ReadLoop` | src/devices/virtio_blk.rs:830-925 | A read that reports success holds exactly the file bytes; short and interrupted calls that make progress succeed. |
| `BlockDisk.Disk.ReadAtFd` | src/devices/virtio_blk.rs:727-741 | Ring first, then plain calls: success means the exact bytes, and the fallback succeeds whenever plain reads do. |
| `BlockDisk.Disk.ReadAt` | src/devices/virtio_blk.rs:703-725 | Direct first, buffered after a refusal: success means the exact bytes whichever path served. |
| `BlockDisk.Disk.WriteLoop` | src/devices/virtio_blk.rs:854-972 | Under any schedule of short, interrupted and failing calls, one that fails having written any part of what it was given: bytes outside the range keep their value, each byte inside is old or new, and success means the whole range is new. |
| `BlockDisk.Disk.WriteAtFd` | src/devices/virtio_blk.rs:770-783 | Likewise through ring and fallback, with the ring's partial effects absorbed. |
| `BlockDisk.Disk.WriteAt` | src/devices/virtio_blk.rs:744-768 | Likewise through direct and buffered descriptors; a range beyond the scratch buffer is refused and changes nothing. |
| `BlockDisk.WriteTorn` | src/devices/virtio_blk.rs:744-783 | The same of the write path as a function of the drive and the results it meets. |
| `BlockDisk.WriteSwitches` | src/devices/virtio_blk.rs:744-783 | The ring stays in use if and only if it served the whole write; O_DIRECT is given up if and only if an aligned write on it is refused with EINVAL, and then the buffered descriptor decides. |
| `BlockDisk.ReadSwitches` | src/devices/virtio_blk.rs:703-741 | Likewise for reads. |
| `BlockDisk.SendableOnly` | src/devices/virtio_blk.rs:821-925 | The ring serves no transfer of 4 GiB or more, a descriptor none beyond what an off_t holds. |
| `BlockDisk.ThroughIsOk` | src/devices/virtio_blk.rs:703-783 | A transfer within the file whose calls get through, on the path preferred or after a refused O_DIRECT, succeeds. |
| `BlockDisk.TornComplete` | src/devices/virtio_blk.rs:854-876 | A range that is written throughout and torn nowhere else is the overwrite. |
| `BlockRequests.SyncFd` | src/devices/virtio_blk.rs:795-814 | Syncs through the ring or, after retiring it, the plain call. |
| `BlockRequests.FlushData` | src/devices/virtio_blk.rs:785-793 | Success means every descriptor in use was synced; plain calls that work are enough for it. |
| `BlockRequests.ServeServes` | src/devices/virtio_blk.rs:548-665 | A request changes no byte but by a permitted write that was loaded, torn at most and whole if confirmed; a permitted write with room for a status is answered if and only if it was loaded, so one dropped wrote nothing; the answer is right for its type: a confirmed read carries exactly the disk bytes of its range, any other read zeros. |
| `BlockRequests.ServeAnswers` | src/devices/virtio_blk.rs:548-665 | A request is answered if and only if its arithmetic fits, its buffers suffice and an allocation it needs succeeds. |
| `BlockRequests.ServeTransfers` | src/devices/virtio_blk.rs:563-619 | A read or permitted write in range whose calls get through is confirmed. |
| `BlockRequests.FlushReports` | src/devices/virtio_blk.rs:620-633 | An answered FLUSH of a writable disk, the feature taken, reports OK if and only if every descriptor in use was synced through the ring or by its plain call, and an I/O error otherwise. |
| `BlockRequests.HandleRequest` | src/devices/virtio_blk.rs:548-665 | The request engine in place is that function, with those laws, the status of a flush included; a request dropped although it had room for a status changed no byte. |
| `BlockRuns.ProcessQueue` | src/devices/virtio_blk.rs:485-546 | The queue loop serves every chain once, in order, on the disk the chains before it left, and returns each head once with the length of its reply. |
| `BlockRuns.QueueIsRun` | src/devices/virtio_blk.rs:485-546 | What it does is a run in the sense of the laws below. |
| `BlockRuns.ByteIsPossible` | src/devices/virtio_blk.rs:548-665 | After any run, failed, torn and dropped writes included, each byte is one of the values its requests and replies allow: the last confirmed write or successful read, or the byte of a later unconfirmed write. |
| `BlockRuns.PossibleIsReal` | src/devices/virtio_blk.rs:485-665 | And each such value is real: there are I/O results under which the same queue, with the same requests and allocations, gives the same replies and leaves that value there, and every other byte as it was. |
| `BlockRuns.PossibleExactly` | src/devices/virtio_blk.rs:485-665 | So the set is exactly the values the queue can have left, given requests, allocations and replies. |
| `BlockRuns.RunIsFold` | src/devices/virtio_blk.rs:548-665 | A byte whose last permitted write was confirmed, or that none covers, is what applying all permitted writes in order gives, however many earlier ones failed. |
| `BlockRuns.SettledRunIsFold` | src/devices/virtio_blk.rs:548-665 | If that is so of every byte, the whole disk is that fold. |
| `BlockRuns.ReadSeesWrites` | src/devices/virtio_blk.rs:548-665 | Each byte of a successful read is one of the allowed values, and the fold's if its last write was confirmed. |
| `BlockRuns.TornWrite` | src/devices/virtio_blk.rs:592-619 | The fold alone can fail: a write whose call errors after one byte is answered with an error and leaves the disk neither old nor new. |
| `BlockRuns.ProtectedRunChangesNothing` | src/devices/virtio_blk.rs:592-619 | On a write-protected disk no run changes a byte. |
| `BlockRuns.RunLength` | src/devices/virtio_blk.rs:548-665 | No run changes the size of the disk. |

## Left out

- KVM ioctls, sockets, files, TAP devices, eventfds, poll loops, signals and the clock: their results are arguments of the model.
- The insides of virtio_queue, vm_memory and io_uring: chains and rings are sequences, guest memory is checked words.
- `src/devices/virtio_mmio.rs`, legacy I/O, serial, ACPI, GDT, the kernel loader, the command line and `src/vmm.rs`: register maps and set-up code with mostly easy properties.
- Poll interest sets of the multiplexer: any socket may become ready at any time in a run, which covers them.
- Failing writes into guest buffers and failing `add_used` calls, in all devices; the error exits of `flush_pending_rx` that come from them.
- A bound on the number of connections: only accepting sockets checks MAX_CONNS, guest requests do not.
- Building the host socket path and creating the socket: both are part of a failed connect.
- A schedule of send results or system calls that runs out counts as an error, a TAP schedule as busy; every longer behaviour is some longer schedule.
- Liveness: `take_worker` is one round of its loop, with nothing said about how often it repeats.
- Worker panics and dropping a device while its worker runs.
- AnnouncementsKeepUp: assumes fewer than 2^32 bytes since the last announcement, because without that it is false (`AnnouncementCanBeMissed`); the exact condition is `BehindExactly` and `BehindOverRuns`.
- TxExactlyOnce: the history starts anew whenever the TX queue is not ready or set up again, because a reset ring reuses its heads.
- VsockDevice.Vsock.Drive: a reset with the queues set up again between two drives is not an event, because the code cannot see it: connections survive it.
- SHUT_RD on a host socket when the guest stops receiving: its only effect is what later reads return, which is any event.
- Interrupted TAP reads: they are repeated at once, so the model leaves them out of the answers.
- PossibleIsReal: for disk images of up to 2^63 - 1 bytes, the largest file offset.
- PageTables.GuestMemory.Write: memory is a sequence of aligned 8-byte words, the only accesses `setup_identity_map` makes.
- BlockDisk.Disk.Ensure: the contents of a newly grown buffer beyond the old ones are unspecified.
- BlockDisk.Disk.WriteAtFd: a failed ring operation has no effect after the ring is retired, which is what draining it is for.
- ApplyTopology: the `padding` field of CPUID entries is not modelled.
