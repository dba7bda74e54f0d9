# badvpn core: model and proofs

This project models the packet-handling core of the vendored badvpn client in Dafny 4.11 and proves
what that code relies on. `dafny verify dfyconfig.toml` checks all of it.

The C code is single-threaded and event-driven. Each piece is modelled twice where it changes state in
place: as a class whose fields are those of the C object and whose methods are its handlers, and as
functions on values that say what a handler does. Every method is proved against its function, and the
properties below are proved about the functions, for every run of events. File names in comments are
relative to `app/src/main/jni/badvpn/`.

- **FragmentProto.** `FragmentProto` is the wire format. `Disassembler` (specified by
  `DisassemblerSpec`) cuts frames into chunks of packets, `Assembler` (with `AssemblerPool`, specified by
  `AssemblerSpec`) puts them together in a fixed pool of entries with a 32-bit packet clock.
  `FragmentPlan` names the parts a frame was cut into; `IdealReceiver` is a receiver without bounds that
  the assembler's table mirrors (`Reordering`). `RoundTrip` joins the two ends, in order and reordered;
  `ChunkBound` adds the sizes used in deployment. `OneDelivery` bounds what a run of packets can deliver, and
  `CancelHazard` says with it exactly which cancels lose a frame. `Freshness` says for any bytes at all what a
  delivered frame is made of, and `PacketFill` how the disassembler fills its packets and when they leave.
- **Forwarding plane.** `DataProto` (state in `DataProtoState`) has flows, buffers and sinks as objects,
  with the detach that is deferred while a queue is sending. `DPRelay` is the relay router on top of it,
  `Client` the peers of client.c on top of both, with the events that make or free their links and flows.
  `PeersSpec`, `PeersSafety`, `PeersEvents` and `PeersRuns` are the peers as tables, with the sink of every local
  and every relay flow: primitive changes, handlers, and runs of events; `PeersOutcomes` says what each event
  leaves each peer with. `DPReceive` decides what happens to a received packet, and `SingleHop` puts nodes that do so into a network.
- **FrameDecider.** `MacIndex`, `MulticastIndex` and `GroupIndex` are the entries, lists and trees;
  `GroupSpec` and the table in `MacIndex` are the simple tables they refine (`GroupRefinement`).
  `FrameDeciderSpec` and `FrameDeciderEvents` add decisions and their iterator, `FrameDecider` the object.
- **BProto.** The emitted writer and parser for any message description: format in `BProto`, cursors in
  `BProtoCursor`, objects in `BProtoObjects` and `BProtoParser`.
- **SPProto.** Packet format and MTUs in `SPProto`, the work functions on their buffers in `SPProtoWork`,
  the objects in `SPProtoEncoder` (specified by `SPProtoEncoderSpec`) and `SPProtoDecoder`. Hash and
  cipher are parameters; of them it is only assumed that the hash has its size and that decryption undoes
  encryption of whole blocks.
- **DHCP client.** `DhcpMessage` is the reply parser, `DhcpWritten` the replies a server writes, `DhcpSpec` the
  timed state machine, `DhcpSafety`, `DhcpRuns` and `DhcpPhases` what its runs keep, `DhcpClient` the object.

`Bytes`, `Memory`, `Lists` and `Wrappers` are shared helpers.

## Where the code differs from what one might expect

- A cancel that reaches the disassembler after part of the frame was written loses a frame that comes after it,
  since the frame id is used again. `CancelHazard.CancelIsHarmlessExactly` gives the condition for every run; the
  sender cancels only frames that wait for an output buffer, and these can be partly written.
- `FrameDecider_AnalyzeAndDecide` returns early when the last multicast decision was not handed out to the
  end. The new frame then gets the rest of the old decision (`FrameDeciderSpec.DecisionIsRightExactly`), and the
  iterator is freed but still used: an entry that goes is then lost with it
  (`FrameDeciderEvents.EarlyReturnLosesIterator`; `LeaveGroupKeeps`, `JoinPending` and `PeerFreeLeavesNothing` give
  the exact conditions). client.c always hands out to the end.
- A packet of several destinations, or of none with a payload, is handled as the code handles it: only a
  count of 1 names a destination.

## Model

| member | source | states |
|---|---|---|
| RoundTrip.LosslessInOrder | app/src/main/jni/badvpn/client/FragmentProtoAssembler.c:154-346 | For every run of frames, output buffers, flush timers and harmless cancels, and every packet size, feeding the packets sent so far to the assembler delivers a prefix of the accepted frames, byte for byte and in order, and all of them once nothing is left to send; frame ids wrap at 16 bits and the clock is renormalised on the way |
| ChunkBound.LosslessAsDeployed | app/src/main/jni/badvpn/client/DatagramPeerIO.c:197-226 | With no chunk limit and the assembler sized by fragmentproto_max_chunks_for_frame, as DatagramPeerIO does, the in-order round trip holds without any condition on how frames were cut |
| RoundTrip.LosslessReordered | app/src/main/jni/badvpn/client/FragmentProtoAssembler.c:70-283 | The packets of a finished run may arrive in any order in which live ids are distinct, partial frames fit the table and chunks of a frame come within the tolerance: the frames delivered are then, as a multiset, exactly the frames accepted |
| Reordering.Reassembly | app/src/main/jni/badvpn/client/FragmentProtoAssembler.c:154-283 | In such an order every frame is delivered exactly once with its original bytes, in the order in which the last chunks arrive |
| Reordering.RunMirrors | app/src/main/jni/badvpn/client/FragmentProtoAssembler.c:154-346 | Over a whole run the assembler table mirrors, entry by entry and age by age, an ideal receiver with unbounded clock, ids and table |
| RoundTrip.UndeliveredNotSent | app/src/main/jni/badvpn/client/FragmentProtoDisassembler.c:39-102 | A frame that was accepted but not delivered still has a chunk that no packet carries: nothing is held back by the assembler |
| RoundTrip.EverythingSent | app/src/main/jni/badvpn/client/FragmentProtoDisassembler.c:39-162 | Once the disassembler is idle, every chunk of every accepted frame is in some packet, and the chunks of each frame cover it whole |
| CancelHazard.CancelIsHarmlessExactly | app/src/main/jni/badvpn/client/FragmentProtoDisassembler.c:122-132 | Exactly when a cancel does harm: for every run, every cancel in it and every further run of harmless events after which nothing is left to send, with any latency and chunk limit, the assembler has delivered the frames accepted and not cancelled if and only if nothing of the cancelled frame had been written, or no frame was accepted after it and kept |
| CancelHazard.HarmfulCancel | app/src/main/jni/badvpn/client/FragmentProtoDisassembler.c:122-132 | A cancel that comes after part of its frame was written loses at least one of the frames accepted after it |
| OneDelivery.RunLoses | app/src/main/jni/badvpn/client/FragmentProtoAssembler.c:154-346 | After the first chunk of a frame was rejected, a run of packets in the order written delivers fewer frames than start in it, whatever the timers, sizes and ids |
| OneDelivery.RunBound | app/src/main/jni/badvpn/client/FragmentProtoAssembler.c:154-346 | From any table, a run of packets in the order written delivers at most one frame for each that starts in it, and one for the frame that is open |
| CancelHazard.AbandonedFramePoisonsNext | app/src/main/jni/badvpn/client/FragmentProtoAssembler.c:195-232 | Why: the abandoned frame keeps its id, and the first chunk of the next frame with that id makes the assembler drop both |
| AssemblerSafety.CompletionExact | app/src/main/jni/badvpn/client/FragmentProtoAssembler.c:195-276 | For pairwise disjoint chunks inside the frame, the sum of their lengths never exceeds the length and equals it exactly when every byte is covered |
| AssemblerSafety.ExtendKeeps | app/src/main/jni/badvpn/client/FragmentProtoAssembler.c:195-256 | A chunk that passes the checks keeps the entry consistent: chunks disjoint, inside the frame, sum and high-water mark exact |
| AssemblerSafety.DeliveredIsUnion | app/src/main/jni/badvpn/client/FragmentProtoAssembler.c:195-276 | A delivered frame is the union of disjoint chunk payloads that cover all of it, fits the output MTU, and its entry is gone |
| Freshness.OnlyFreshChunks | app/src/main/jni/badvpn/client/FragmentProtoAssembler.c:154-346 | In every run of packets, whatever bytes they hold, each frame delivered is completed by a chunk of its own and is the disjoint union of all in-bounds chunks of its id since one of them, exactly one of them the last, and none came more than num_frames packets after the one before |
| Freshness.StaleIsIgnored | app/src/main/jni/badvpn/client/FragmentProtoAssembler.c:179-193 | A chunk whose entry is older than num_frames packets does what it does on the table without that entry |
| Freshness.ObtainExactly | app/src/main/jni/badvpn/client/FragmentProtoAssembler.c:70-103 | A chunk goes to the entry of its id that is not too old, or else to a new one behind all others; if there is no room then, the entry begun first goes and no other |
| FragmentProto.DecodesExactly | app/src/main/jni/badvpn/protocol/fragmentproto.h:55-80 | A chunk is read from the front of a packet exactly when the packet starts with that chunk written |
| AssemblerSafety.ProcessChunkKeeps | app/src/main/jni/badvpn/client/FragmentProtoAssembler.c:154-283 | Whatever chunk arrives, the table keeps its invariant: distinct ids, at most num_frames incomplete entries with room for a chunk, no time in the future |
| AssemblerSafety.ScanKeeps | app/src/main/jni/badvpn/client/FragmentProtoAssembler.c:285-346 | Whatever bytes a packet holds, reading its chunks keeps the table invariant |
| AssemblerSafety.PacketIsChunks | app/src/main/jni/badvpn/client/FragmentProtoAssembler.c:285-346 | Processing the bytes of a packet is processing its chunks one by one, then advancing the clock |
| AssemblerSafety.ReduceTimesFaithful | app/src/main/jni/badvpn/client/FragmentProtoAssembler.c:117-152 | Renormalising the clock removes only expired frames, keeps the age of each survivor, keeps every time at most the clock, and strictly lowers a saturated clock |
| AssemblerSafety.TickFaithful | app/src/main/jni/badvpn/client/FragmentProtoAssembler.c:326-339 | The 32-bit clock never overflows; one packet later every surviving frame is exactly one older, and every frame within the tolerance survives |
| Reordering.CompleteWhenAllHeld | app/src/main/jni/badvpn/client/FragmentProtoAssembler.c:195-276 | A frame completes exactly when all its parts are held, and its bytes are then the original ones |
| Assembler.FragmentProtoAssembler.constructor | app/src/main/jni/badvpn/client/FragmentProtoAssembler.c:370-445 | A new assembler has all num_frames entries in the free list and the empty table |
| Assembler.FragmentProtoAssembler.FreeFrame | app/src/main/jni/badvpn/client/FragmentProtoAssembler.c:46-55 | One entry moves from the used list to the free list and leaves the id index; the pool stays partitioned |
| Assembler.FragmentProtoAssembler.AllocateNewFrame | app/src/main/jni/badvpn/client/FragmentProtoAssembler.c:70-103 | The new entry is a free one, or the oldest used one when none is free; the table is that of the specification |
| Assembler.FragmentProtoAssembler.ApplyChunk | app/src/main/jni/badvpn/client/FragmentProtoAssembler.c:195-283 | Overlap, late-last and beyond-end chunks drop the frame, a completing chunk hands out the buffer, any other is stored |
| Assembler.FragmentProtoAssembler.ProcessChunk | app/src/main/jni/badvpn/client/FragmentProtoAssembler.c:154-283 | On the real pool, index and buffers, processing a chunk is the specification function; a completed frame comes out as its buffer and length |
| Assembler.FragmentProtoAssembler.DropExpired | app/src/main/jni/badvpn/client/FragmentProtoAssembler.c:117-139 | The loop over the used list drops exactly the expired frames and finds the earliest survivor |
| Assembler.FragmentProtoAssembler.ReduceTimes | app/src/main/jni/badvpn/client/FragmentProtoAssembler.c:117-152 | The two loops compute the renormalised table of the specification |
| Assembler.FragmentProtoAssembler.ProcessInput | app/src/main/jni/badvpn/client/FragmentProtoAssembler.c:285-346 | The packet loop delivers the frame the specification delivers next, or finishes the packet and advances the clock |
| Assembler.FragmentProtoAssembler.InputHandlerSend | app/src/main/jni/badvpn/client/FragmentProtoAssembler.c:348-360 | A new packet is processed up to its first complete frame |
| Assembler.FragmentProtoAssembler.OutputHandlerDone | app/src/main/jni/badvpn/client/FragmentProtoAssembler.c:362-368 | A buffer is lent out exactly while a packet is in work; only when the output is done with it is the rest of the packet processed |
| AssemblerPool.FrameEntry.Check | app/src/main/jni/badvpn/client/FragmentProtoAssembler.c:195-239 | The rejection test on the chunk table is the specification of an acceptable chunk |
| AssemblerPool.FrameEntry.OverlapsAny | app/src/main/jni/badvpn/client/FragmentProtoAssembler.c:105-108 | The loop over stored chunks finds an overlap exactly when one exists |
| AssemblerPool.FreeKeeps | app/src/main/jni/badvpn/client/FragmentProtoAssembler.c:46-55 | Freeing keeps free and used lists a partition of the pool and the index exact |
| AssemblerPool.UseKeeps | app/src/main/jni/badvpn/client/FragmentProtoAssembler.c:70-103 | Allocating keeps free and used lists a partition of the pool and the index exact |
| DisassemblerSafety.StepKeeps | app/src/main/jni/badvpn/client/FragmentProtoDisassembler.c:39-162 | Every event keeps: chunks of a frame tile it in order with only the final one marked last, no packet is empty or exceeds the output MTU, and a held packet has room for a nonempty chunk, so no assertion of write_chunks can fail |
| DisassemblerSpec.WriteOneKeeps | app/src/main/jni/badvpn/client/FragmentProtoDisassembler.c:46-89 | Each chunk written fits the packet, which grows by it, and leaves every frame cut in order into nonempty chunks, or one empty one of an empty frame |
| PacketFill.StepGreedy | app/src/main/jni/badvpn/client/FragmentProtoDisassembler.c:46-89 | In every run, with any chunk limit and any cancels, every chunk is as long as the rest of its frame, the room in its packet and the limit allow |
| PacketFill.LeavesWhenDue | app/src/main/jni/badvpn/client/FragmentProtoDisassembler.c:78-102 | An event sends one packet at most: a full one, any if the latency is negative, or the one whose timer ran out; nothing waits when the latency is negative |
| InOrder.StepOrdered | app/src/main/jni/badvpn/client/FragmentProtoDisassembler.c:39-162 | The chunks of all packets, in order, are the chunks of all frames, in order |
| ChunkBound.TotalBound | app/src/main/jni/badvpn/protocol/fragmentproto.h:82-98 | Without a chunk limit no frame takes more than fragmentproto_max_chunks_for_frame chunks |
| ChunkBound.StepFull | app/src/main/jni/badvpn/client/FragmentProtoDisassembler.c:39-102 | Without a chunk limit every chunk but the first and the last of a frame fills a packet of its own |
| FragmentProto.DecodeEncodeChunk | app/src/main/jni/badvpn/protocol/fragmentproto.h:55-80 | Reading the packed header and payload back gives the chunk that was written |
| Disassembler.FragmentProtoDisassembler.WriteLoop | app/src/main/jni/badvpn/client/FragmentProtoDisassembler.c:46-89 | The do-while loop writes into the output buffer exactly the chunks of the specification |
| Disassembler.FragmentProtoDisassembler.WriteChunks | app/src/main/jni/badvpn/client/FragmentProtoDisassembler.c:39-102 | The loop and what follows it: frame done, packet sent or timer set as specified |
| Disassembler.FragmentProtoDisassembler.InputHandlerSend | app/src/main/jni/badvpn/client/FragmentProtoDisassembler.c:104-120 | A frame is accepted and cut into the held packet |
| Disassembler.FragmentProtoDisassembler.InputHandlerRequestCancel | app/src/main/jni/badvpn/client/FragmentProtoDisassembler.c:122-132 | A cancel forgets the frame and keeps its id for the next one |
| Disassembler.FragmentProtoDisassembler.OutputHandlerRecv | app/src/main/jni/badvpn/client/FragmentProtoDisassembler.c:134-149 | A new output buffer takes up the waiting frame |
| Disassembler.FragmentProtoDisassembler.TimerHandler | app/src/main/jni/badvpn/client/FragmentProtoDisassembler.c:151-162 | The latency timer sends the held packet as it is |
| DataProto.SettledPlane | app/src/main/jni/badvpn/client/DataProto.c:146-225 | Once no buffer waits to be moved, every flow sits on the sink it wants and every buffer has a flow: none leaked |
| DataProto.FlowAttach | app/src/main/jni/badvpn/client/DataProto.c:516-543 | Attaching sets the wanted sink; the buffer is there at once, or stays detaching on the sink that is sending from it |
| DataProto.FlowDetach | app/src/main/jni/badvpn/client/DataProto.c:545-566 | Detaching frees the buffer from the sink at once, or schedules it when the sink is sending from it |
| DataProto.FlowFree | app/src/main/jni/badvpn/client/DataProto.c:458-484 | Freeing a flow that wants no sink frees its buffer, or leaves it ownerless and detaching on the busy sink |
| DataProto.SinkFree | app/src/main/jni/badvpn/client/DataProto.c:297-337 | Freeing a sink nobody wants leaves no buffer on it, frees an ownerless detaching buffer and moves an owned one to the sink its flow wants |
| DataProto.QueueDone | app/src/main/jni/badvpn/flow/PacketPassFairQueue.c:182-217 | When the busy send ends, a detaching buffer is freed or sits exactly where its flow wants it |
| DataProto.BufferScheduleDetach | app/src/main/jni/badvpn/client/DataProto.c:180-198 | At most one buffer per sink is detaching, and it is the one being sent |
| DataProto.BufferFinishDetach | app/src/main/jni/badvpn/client/DataProto.c:200-216 | Ends a deferred detach: freed if ownerless, attached to the wanted sink otherwise |
| DataProto.SinkReceived | app/src/main/jni/badvpn/client/DataProto.c:339-358 | The receive timer runs, the up job is pending exactly when the state differs from the last report, and a keep-alive goes out exactly when the peer reports that it receives nothing |
| DataProto.ReceiveTimerHandler | app/src/main/jni/badvpn/client/DataProto.c:71-79 | The same after the receive timer |
| DataProto.UpJobHandler | app/src/main/jni/badvpn/client/DataProto.c:100-109 | A report is always a change: up and down reports of a sink alternate |
| DPRelay.DPRelayRouter.SourceFindFlow | app/src/main/jni/badvpn/client/DPRelay.c:116-127 | The list walk finds the flow of the source to the sink exactly when there is one |
| DPRelay.DPRelayRouter.CreateFlow | app/src/main/jni/badvpn/client/DPRelay.c:42-82 | The new flow is in both lists and attached to the sink's link if there is one |
| DPRelay.DPRelayRouter.FreeFlow | app/src/main/jni/badvpn/client/DPRelay.c:84-107 | The flow leaves both lists and the current-flow pointer; its data-plane flow is detached and freed |
| DPRelay.DPRelayRouter.SubmitFrame | app/src/main/jni/badvpn/client/DPRelay.c:186-221 | At most one flow per source and sink: a frame uses the existing flow or creates it |
| DPRelay.DPRelayRouter.SinkAttach | app/src/main/jni/badvpn/client/DPRelay.c:278-292 | Every flow of the destination is attached to its new link |
| DPRelay.DPRelayRouter.SinkDetach | app/src/main/jni/badvpn/client/DPRelay.c:294-307 | No relay flow wants the link any more |
| DPRelay.DPRelayRouter.FreePeer | app/src/main/jni/badvpn/client/DPRelay.c:238-276 | Freeing the source and the sink of a peer frees all its flows and no others |
| PeersRuns.ReachableSettled | app/src/main/jni/badvpn/client/client.c:1606-1898 | In every state reachable by server, chat, timer and link events: each peer has at most one of link, relay and place in the waiting list, lists and flags agree, relays are linked peers that are never relayed, local flows want the matching sink, nobody waits while there is a relay, and relays are exactly the relay servers whose link is up |
| PeersRuns.FreedLinkUnwanted | app/src/main/jni/badvpn/client/client.c:1695-1727 | In every reachable state, relay flows of received frames included, a peer's link has on it exactly the peer's own local flow and the relay flows towards the peer, and after it is freed no flow of any kind |
| PeersSafety.FreeLinkKeeps | app/src/main/jni/badvpn/client/client.c:1695-1727 | Freeing a link keeps the tables consistent, and no other peer's flow wanted it |
| PeersSafety.InstallRelayingKeeps | app/src/main/jni/badvpn/client/client.c:1802-1822 | Installing a relay keeps the tables consistent; a relay never relays to itself |
| PeersSafety.FreeRelayingKeeps | app/src/main/jni/badvpn/client/client.c:1824-1845 | Leaving a relay keeps the tables consistent |
| PeersEvents.AssignRelays | app/src/main/jni/badvpn/client/client.c:2684-2709 | Assigning terminates with nobody waiting or no relay, and changes nothing but who relays for whom |
| PeersEvents.DroppedUsersWait | app/src/main/jni/badvpn/client/client.c:1771-1800 | Every user of a disabled relay goes to the end of the waiting list, in order |
| PeersEvents.Cleanup | app/src/main/jni/badvpn/client/client.c:1729-1748 | After cleanup a peer has neither link nor relay nor place in the waiting list, and all other peers keep their links |
| PeersEvents.NeedRelay | app/src/main/jni/badvpn/client/client.c:1847-1868 | A peer in need of a relay loses its link, and afterwards it waits or is relayed |
| PeersRuns.BindStops | app/src/main/jni/badvpn/client/client.c:2301-2340 | Binding stops at the first address where a link is bound, leaving that link, or where none could be made, leaving no connection and a master's retry timer; past the last address a peer that is not the master, and is no relay, waits for a relay or has one |
| PeersRuns.Connect | app/src/main/jni/badvpn/client/client.c:2405-2440 | Connecting leaves the new link in place of whatever there was; where it fails, no connection, and the retry timer of a master |
| PeersRuns.LinkReportFlips | app/src/main/jni/badvpn/client/client.c:2626-2645 | A report of a link is the opposite of its last one, and afterwards the peer is a relay exactly when it is a relay server whose link is up |
| PeersRuns.NewClientAdds | app/src/main/jni/badvpn/client/client.c:2773-2803 | A new client becomes a peer, without a connection, exactly when it is neither this client nor a known peer and the limit is not reached; all others stay, and the limit is kept |
| PeersOutcomes.StepOutcome | app/src/main/jni/badvpn/client/client.c:2090-2345 | What every event leaves every peer with: for each of start, retry timer, cannotconnect, cannotbind, youconnect, youretry, link error, link report, new client and end client the link, flags, timer and binding position of the peer exactly and whether it waits for a relay or has one; all other peers keep theirs |
| PeersOutcomes.BindBecomes | app/src/main/jni/badvpn/client/client.c:2301-2403 | Binding from any address on has its outcome in one step: the link of the first address that is bound; a reset at one where no link can be made; else the last link made, which a peer that is neither master nor relay gives up for a relay |
| PeersOutcomes.AssignsToFirst | app/src/main/jni/badvpn/client/client.c:2684-2709 | All peers that wait go to the first relay, in the order in which they wait, and nothing changes for anybody else |
| Client.PeerClient.InitLink | app/src/main/jni/badvpn/client/client.c:1606-1693 | On the real objects: a new sink, to which the local flow and the relay destination are attached |
| Client.PeerClient.FreeLink | app/src/main/jni/badvpn/client/client.c:1695-1727 | On the real objects: when the sink is freed nothing wants it, and no flow buffer points at it afterwards |
| Client.PeerClient.AssignRelays | app/src/main/jni/badvpn/client/client.c:2684-2709 | The loop computes the assignment of the specification |
| Client.PeerClient.DisconnectUsers | app/src/main/jni/badvpn/client/client.c:1778-1794 | The loop over relay users computes the specification |
| Client.PeerClient.DisableRelayProvider | app/src/main/jni/badvpn/client/client.c:1771-1800 | Users leave, the relay leaves the list, waiting peers are assigned |
| Client.PeerClient.EnableRelayProvider | app/src/main/jni/badvpn/client/client.c:1750-1769 | The peer becomes a relay and waiting peers are assigned to it |
| Client.PeerClient.CleanupConnections | app/src/main/jni/badvpn/client/client.c:1729-1748 | Link, relay or place in the waiting list is given up on the real objects |
| Client.PeerClient.NeedRelayFor | app/src/main/jni/badvpn/client/client.c:1847-1868 | The connection goes, the peer waits and relays are assigned |
| Client.PeerClient.ResetPeer | app/src/main/jni/badvpn/client/client.c:1900-1914 | Cleanup, and the retry timer if this end is the master |
| Client.PeerClient.PeerBind | app/src/main/jni/badvpn/client/client.c:2301-2340 | The loop over bind addresses is the specification, with a new link for each one made |
| Client.PeerClient.PeerConnect | app/src/main/jni/badvpn/client/client.c:2405-2440 | A new link, given up again if connecting fails |
| Client.PeerClient.LinkUpDown | app/src/main/jni/badvpn/client/client.c:2626-2645 | The report of the link and what it does to relays |
| Client.PeerClient.PeerRemove | app/src/main/jni/badvpn/client/client.c:1509-1568 | The peer, its relay flows and its local flow are gone; all else is in order |
| Client.PeerClient.ServerNewClient | app/src/main/jni/badvpn/client/client.c:2773-2803 | The event on the real objects |
| Client.PeerClient.ServerEndClient | app/src/main/jni/badvpn/client/client.c:2805-2818 | The event on the real objects |
| Client.PeerClient.PeerJobInit | app/src/main/jni/badvpn/client/client.c:2885-2891 | The master starts binding |
| Client.PeerClient.ResetTimerHandler | app/src/main/jni/badvpn/client/client.c:2283-2291 | Only a master's timer runs; it starts binding again |
| Client.PeerClient.MsgCannotBind | app/src/main/jni/badvpn/client/client.c:2106-2122 | On the real objects: the event of StepOutcome, in which a master's peer that is no relay loses its link and waits for a relay or has one, and on the other side binding starts at the first address |
| Client.PeerClient.SubmitFrame | app/src/main/jni/badvpn/client/DPRelay.c:186-221 | On the real objects: a frame to be relayed makes the flow of its pair of peers the current one, made if need be and on the link of its destination, and all else stays in order |
| Client.PeerClient.RouterDpSourceHandler | app/src/main/jni/badvpn/client/DPRelay.c:129-143 | The current flow is cleared, and all else stays in order |
| Client.PeerClient.FlowInactivityHandler | app/src/main/jni/badvpn/client/DPRelay.c:109-114 | The relay flow is gone from the router, the data plane and the tables; all else stays in order |
| Client.TablesCoverFlows | app/src/main/jni/badvpn/client/DPRelay.c:42-107 | The tables cover every flow there is: the sink a flow wants is that of its relay route, or that of its peer's local flow |
| DPReceive.ReceiverRecv | app/src/main/jni/badvpn/client/DPReceive.c:55-169 | For every packet: what the sink is told, whether the frame goes to the device, and whether it is relayed, each exactly when the conditions hold |
| DPReceive.FindPeer | app/src/main/jni/badvpn/client/DPReceive.c:43-53 | Finds a peer with the id exactly when there is one |
| DPReceive.ParseHeader | app/src/main/jni/badvpn/client/DataProto.c:494-501 | The header written by the routing flow is parsed back |
| DPReceive.ParsesExactly | app/src/main/jni/badvpn/client/DPReceive.c:55-110 | A packet is parsed exactly when it is a frame to one destination or a keep-alive, as written |
| SingleHop.SingleRelayHop | app/src/main/jni/badvpn/client/DPReceive.c:112-168 | In every run of a network of such nodes, with packets lost and peers coming and going, every frame in flight has crossed at most one relay and every delivered frame is the one its origin sent to that node |
| SingleHop.NoSecondRelay | app/src/main/jni/badvpn/client/DPReceive.c:127-152 | A relayed frame is never relayed again, whatever the node knows |
| FrameDeciderSpec.DecisionIsRight | app/src/main/jni/badvpn/client/FrameDecider.c:361-510 | After a finished decision, the destinations pending are those of the frame: all peers, the entries of its group signature, the owner of the address, or none |
| FrameDeciderSpec.DecisionIsRightExactly | app/src/main/jni/badvpn/client/FrameDecider.c:370-376 | The decision is right for every frame if and only if no multicast decision is unfinished, or there are no peers |
| FrameDeciderSpec.DecisionLowersTimes | app/src/main/jni/badvpn/client/FrameDecider.c:427-466 | Deciding on a group-specific query lowers the time of that group's memberships, at every peer, to the limit; any other frame and the early return leave all memberships as they are |
| FrameDeciderSpec.NextIsPending | app/src/main/jni/badvpn/client/FrameDecider.c:512-556 | Each call hands out the next pending destination, and none when there is none |
| FrameDeciderSpec.HandOutIsPending | app/src/main/jni/badvpn/client/FrameDecider.c:512-556 | All calls together hand out exactly the pending destinations, in order |
| FrameDeciderSpec.MulticastReaches | app/src/main/jni/badvpn/client/FrameDecider.c:481-496 | A frame addressed to a group's mapping (section 6.4 of RFC 1112) reaches every peer that joined the group |
| FrameDeciderSpec.MasterHeads | app/src/main/jni/badvpn/client/FrameDecider.c:133-197 | A signature has a master in the tree exactly when it has entries, and the master heads their list |
| FrameDeciderSpec.DropPending | app/src/main/jni/badvpn/client/FrameDecider.c:166-197 | Freeing an entry while the iterator is registered takes that entry, and nothing else, from what is still to be handed out |
| MacIndex.AddMacLearns | app/src/main/jni/badvpn/client/FrameDecider.c:69-118 | Entries, lists and tree do what the simple table of least recently used addresses per peer does |
| MacIndex.LearnFacts | app/src/main/jni/badvpn/client/FrameDecider.c:69-118 | In that table the address learnt is the most recent of the peer and of nobody else, and only the peer's least recent address, when it is full, is lost |
| MacIndex.OneOwner | app/src/main/jni/badvpn/client/FrameDecider.c:498-508 | An address is in a peer's list exactly when the tree gives that peer as its owner |
| MacIndex.AddPeerKeeps | app/src/main/jni/badvpn/client/FrameDecider.c:558-624 | A new peer brings all its entries free |
| MacIndex.RemovePeerKeeps | app/src/main/jni/badvpn/client/FrameDecider.c:650-668 | Removing a peer leaves no entry of it in the tree and every other peer's addresses |
| GroupRefinement.AddGroupJoins | app/src/main/jni/badvpn/client/FrameDecider.c:199-252 | Entries and indexes do what the simple table of memberships does: join makes a group the most recent, in place of the least recent when full |
| GroupRefinement.LeaveQuits | app/src/main/jni/badvpn/client/FrameDecider.c:254-279 | An expired entry ends that membership and no other |
| GroupRefinement.LowerLowersAll | app/src/main/jni/badvpn/client/FrameDecider.c:281-314 | A group-specific query lowers the times of exactly the memberships of that group |
| GroupSpec.JoinFacts | app/src/main/jni/badvpn/client/FrameDecider.c:199-252 | In the table of memberships a join makes the group the most recent with its new time and loses none of the others but the least recent, for a new group without room |
| GroupSpec.LowerFacts | app/src/main/jni/badvpn/client/FrameDecider.c:281-314 | Lowering keeps every membership and its place, and changes only later times of the group |
| FrameDecider.JoinsExactly | app/src/main/jni/badvpn/client/FrameDecider.c:776-786 | A record joins its group exactly when its sender listens to some source (section 4.2.12 of RFC 3376) |
| FrameDecider.ReportedOnly | app/src/main/jni/badvpn/client/FrameDecider.c:671-795 | A report gives the groups it joins the new time and adds no others |
| FrameDecider.ReportedAll | app/src/main/jni/badvpn/client/FrameDecider.c:671-795 | With room for them it adds all groups it joins, and none is lost |
| FrameDecider.ReportedLast | app/src/main/jni/badvpn/client/FrameDecider.c:671-795 | The last group it joins is the most recent in any case |
| GroupRefinement.RemovePeerKeeps | app/src/main/jni/badvpn/client/FrameDecider.c:626-648 | A removed peer leaves no entry in the multicast index; the others stay |
| GroupRefinement.SigOfMapping | app/src/main/jni/badvpn/client/FrameDecider.c:120-131 | The signature of a group equals that of the address the group maps to |
| GroupRefinement.TargetsAreEntries | app/src/main/jni/badvpn/client/FrameDecider.c:541-550 | One destination for every entry of the signature, and for no other entry |
| GroupRefinement.GroupIsReached | app/src/main/jni/badvpn/client/FrameDecider.c:481-496 | Every peer that joined a group is among the destinations of its signature |
| FrameDeciderEvents.LearnKeeps | app/src/main/jni/badvpn/client/FrameDecider.c:69-118 | Learning an address keeps the decider consistent and what is pending |
| FrameDeciderEvents.PeerInitKeeps | app/src/main/jni/badvpn/client/FrameDecider.c:558-624 | A new peer keeps tables and decider consistent, and starts with no address and no membership |
| FrameDeciderEvents.JoinKeeps | app/src/main/jni/badvpn/client/FrameDecider.c:199-252 | Joining keeps tables and decider consistent and is the join of the table of memberships |
| FrameDeciderEvents.JoinPending | app/src/main/jni/badvpn/client/FrameDecider.c:199-252 | In the middle of a multicast decision, a join changes whether the entry it uses is pending and nothing else, unless it takes over the entry of an iterator no longer registered: then the decision goes on with the entries of the joined group |
| FrameDeciderEvents.LeaveGroupKeeps | app/src/main/jni/badvpn/client/FrameDecider.c:254-279 | An expiry ends one membership; the decider stays consistent, with that entry alone gone from what is pending, if and only if the iterator is registered or is not at that entry |
| FrameDeciderEvents.PeerFreeLeavesNothing | app/src/main/jni/badvpn/client/FrameDecider.c:626-669 | After a peer is freed no address or membership refers to it; no pending destination does, and all else that was pending is pending still in order, if and only if the iterator is registered or is at no entry of the peer |
| FrameDeciderEvents.EarlyReturnLosesIterator | app/src/main/jni/badvpn/client/FrameDecider.c:370-376 | The early return in the middle of a multicast decision frees the iterator: if its entry then expires, the next destination is the expired entry, and if the peer is freed, the iterator is at freed memory |
| FrameDecider.Decider.AddMacToPeer | app/src/main/jni/badvpn/client/FrameDecider.c:69-118 | The lists, entries and tree after the method are those of the specification |
| FrameDecider.Decider.AddToMulticast | app/src/main/jni/badvpn/client/FrameDecider.c:133-164 | A new entry becomes the master of its signature or follows it |
| FrameDecider.Decider.RemoveFromMulticast | app/src/main/jni/badvpn/client/FrameDecider.c:166-197 | The entry leaves its list, a master hands on to its neighbour, a registered iterator at it moves on and one that is not stays |
| FrameDecider.Decider.AddGroupToPeer | app/src/main/jni/badvpn/client/FrameDecider.c:199-252 | The joined group is refreshed or takes a free or the oldest entry |
| FrameDecider.Decider.RemoveGroupEntry | app/src/main/jni/badvpn/client/FrameDecider.c:254-279 | The entry returns to the free list and leaves both indexes |
| FrameDecider.Decider.LowerGroupTimers | app/src/main/jni/badvpn/client/FrameDecider.c:281-314 | The loop over the signature's list lowers the timers of the group |
| FrameDecider.Decider.AnalyzeAndDecideFrame | app/src/main/jni/badvpn/client/FrameDecider.c:361-510 | The decision of the specification, with its early return, which frees the iterator |
| FrameDecider.Decider.NextPeer | app/src/main/jni/badvpn/client/FrameDecider.c:512-556 | The next destination of the specification |
| FrameDecider.Decider.FreePeer | app/src/main/jni/badvpn/client/FrameDecider.c:626-669 | The loops over groups and addresses leave what the specification leaves |
| FrameDecider.Decider.PeerAnalyze | app/src/main/jni/badvpn/client/FrameDecider.c:671-795 | Learns the source address and joins each group an IGMP report includes |
| BProto.ParseIffWritten | app/src/main/jni/badvpn/bproto_generator/bproto_functions.php:422-575 | For every description, bytes parse to a list of entries exactly when they are what writing those entries gives |
| BProto.AcceptsExactlyWritten | app/src/main/jni/badvpn/bproto_generator/bproto_functions.php:422-610 | The parser accepts exactly the messages the writer can have written |
| BProtoCursor.CardinalitiesMean | app/src/main/jni/badvpn/bproto_generator/bproto_functions.php:580-606 | The counts are allowed exactly when every required field is there and no field that does not repeat is there twice |
| BProto.ReadWritten | app/src/main/jni/badvpn/bproto_generator/bproto_functions.php:454-575 | The first entry of written bytes is read back with its type, id, value and size |
| BProtoObjects.Writer.AddUint | app/src/main/jni/badvpn/bproto_generator/bproto_functions.php:342-419 | An integer entry is appended in its packed form |
| BProtoObjects.Writer.AddData | app/src/main/jni/badvpn/bproto_generator/bproto_functions.php:342-419 | A data entry is appended with its length and whatever the buffer holds as payload, and the payload's place is returned |
| BProtoObjects.Writer.Fill | app/src/main/jni/badvpn/bproto_generator/bproto_functions.php:342-419 | Bytes the caller copies to a returned place, at any later time, become the payload of that entry, and every other entry stays |
| BProtoObjects.Writer.Finish | app/src/main/jni/badvpn/bproto_generator/bproto_functions.php:177-189 | The length is the sum of the size macros of the entries, and the bytes parse back to them |
| BProtoParser.Parser.Init | app/src/main/jni/badvpn/bproto_generator/bproto_functions.php:422-610 | Accepts exactly when the bytes are entries of the description in allowed numbers; start and span are entry boundaries and every value is left to be returned |
| BProtoParser.Parser.Scan | app/src/main/jni/badvpn/bproto_generator/bproto_functions.php:454-575 | The loop marks the first and last entry of every field and counts them |
| BProtoParser.Parser.Get | app/src/main/jni/badvpn/bproto_generator/bproto_functions.php:639-759 | Returns the field's next value, or none when all were returned; no assertion on the bytes left can fail, and other cursors stay |
| BProtoParser.Parser.Reset | app/src/main/jni/badvpn/bproto_generator/bproto_functions.php:761-769 | All the field's values are left again |
| BProtoParser.Parser.Forward | app/src/main/jni/badvpn/bproto_generator/bproto_functions.php:761-769 | None of the field's values is left |
| BProtoParser.Parser.GotEverything | app/src/main/jni/badvpn/bproto_generator/bproto_functions.php:612-637 | True exactly when every field was fully read or forwarded over |
| BProtoParser.MarkStep | app/src/main/jni/badvpn/bproto_generator/bproto_functions.php:454-575 | One entry more keeps every field's start, span and count exact |
| BProtoCursor.ValuesLeft | app/src/main/jni/badvpn/bproto_generator/bproto_functions.php:649-759 | What a cursor at an entry has left of a field |
| SPProto.RoundTrip | app/src/main/jni/badvpn/client/SPProtoDecoder.c:42-155 | For every payload, block size and choice of password, hash and encryption, decoding what was encoded gives back payload, seed id and password; the packet has the carrier MTU of its payload |
| SPProto.DecodesExactly | app/src/main/jni/badvpn/client/SPProtoDecoder.c:42-155 | For any hash and cipher, a packet decodes to a payload, seed id and password exactly when its blocks decrypt to the padded plaintext of those, with the hash of the plaintext with its hash field zero, and the payload fits |
| SPProto.DecodedHashIsRight | app/src/main/jni/badvpn/client/SPProtoDecoder.c:132-149 | A packet whose hash field is not the hash of its plaintext with that field zero does not decode |
| SPProto.PadStartUnique | app/src/main/jni/badvpn/client/SPProtoDecoder.c:88-107 | The backward scan finds a position exactly when it holds a 1 in the last block followed by zeros only |
| SPProto.PadFound | app/src/main/jni/badvpn/client/SPProtoEncoder.c:126-134 | Padding puts that position at the end of the plaintext, whatever the plaintext ends in |
| SPProto.MtuInverse | app/src/main/jni/badvpn/protocol/spproto.h:145-193 | The carrier MTU is the size of the largest packet and fits an int, or is -1 when that size is within a block of overflow; a payload MTU fits a carrier MTU exactly when it is at most the payload MTU computed for that carrier |
| SPProtoWork.EncodeWork | app/src/main/jni/badvpn/client/SPProtoEncoder.c:87-152 | In buffers of the allocated sizes no write is out of range, and the output is the specified packet |
| SPProtoWork.DecodeWork | app/src/main/jni/badvpn/client/SPProtoDecoder.c:42-155 | The packet decodes exactly when the specification does, to its payload; the input is left as it was, hash field included |
| SPProtoWork.ScanPadding | app/src/main/jni/badvpn/client/SPProtoDecoder.c:88-107 | The loop is the specified scan |
| SPProtoWork.HashMatches | app/src/main/jni/badvpn/client/SPProtoDecoder.c:132-151 | The hash field is zeroed for the calculation and restored |
| SPProtoEncoderSpec.EveryRun | app/src/main/jni/badvpn/client/SPProtoEncoder.c:49-85 | In every run a packet that could be encoded is being encoded, no two packets carry the same password of a seed, each carries a password of the seed it names, and a seed is warned about once, when its warning count is reached |
| SPProtoEncoderSpec.UsesWhatWasAskedFor | app/src/main/jni/badvpn/client/SPProtoEncoder.c:369-428 | In every run the encoder uses the seeds and the key it was given: each seed under its id, its passwords in turn and none after it is removed, and a packet can be encoded exactly when the seed in use has passwords left and the key is there |
| SPProtoEncoderSpec.StartsDraw | app/src/main/jni/badvpn/client/SPProtoEncoder.c:49-85 | Each start of work draws one password and nothing else does; work ends when it is done or the key changes, and a packet goes out with the password drawn last |
| SPProtoEncoderSpec.PacketWaitsUntilSent | app/src/main/jni/badvpn/client/SPProtoEncoder.c:170-222 | In every run the packet received last is there until it is sent |
| SPProtoEncoderSpec.StepKeepsValid | app/src/main/jni/badvpn/client/SPProtoEncoder.c:154-243 | Every handler and call keeps the encoder's state consistent |
| SPProtoEncoder.Encoder.EncodeWorkHandler | app/src/main/jni/badvpn/client/SPProtoEncoder.c:87-168 | The packet handed out is the specified encoding of the payload received, with the password drawn for it |
| SPProtoEncoder.Encoder.InputHandlerDone | app/src/main/jni/badvpn/client/SPProtoEncoder.c:195-211 | A received payload is encoded at once if possible |
| SPProtoEncoder.Encoder.SetEncryptionKey | app/src/main/jni/badvpn/client/SPProtoEncoder.c:369-390 | Running work is stopped and restarted with the new key and a new password |
| SPProtoEncoder.Encoder.RemoveEncryptionKey | app/src/main/jni/badvpn/client/SPProtoEncoder.c:392-407 | Running work is stopped; the payload waits |
| SPProtoEncoder.Encoder.OtpGeneratorHandler | app/src/main/jni/badvpn/client/SPProtoEncoder.c:224-234 | A new seed comes into use with its id, and a waiting payload is encoded |
| SPProtoEncoder.Encoder.RemoveOtpSeed | app/src/main/jni/badvpn/client/SPProtoEncoder.c:421-428 | No password is left |
| SPProtoDecoder.Decoder.DecodeWorkHandler | app/src/main/jni/badvpn/client/SPProtoDecoder.c:157-183 | A packet is sent on exactly when it decodes and its password is accepted, and finished otherwise |
| SPProtoDecoder.Decoder.MaybeStopWorkAndIgnore | app/src/main/jni/badvpn/client/SPProtoDecoder.c:213-226 | A packet in work is dropped and finished |
| SPProtoDecoder.EncodedIsDelivered | app/src/main/jni/badvpn/client/SPProtoDecoder.c:157-183 | What the encoder makes is delivered with its payload when the password is accepted |
| SPProtoDecoder.DeliveredExactly | app/src/main/jni/badvpn/client/SPProtoDecoder.c:42-183 | A packet is delivered exactly when it carries that payload with the right hash and an accepted password |
| DhcpRuns.EveryRun | app/src/main/jni/badvpn/dhcpclient/BDHCPClientCore.c:565-678 | In every run the running timers are a function of the state, UP and DOWN alternate, the client is up exactly after an UP, and no xid serves more than 8 starts in a row |
| DhcpRuns.LeaseIsRespected | app/src/main/jni/badvpn/dhcpclient/BDHCPClientCore.c:44-52 | When no timer fires later than a delay, the client is never up later than the last ACK it took plus the lease that ACK gave plus twice the delay; with timers on time, never past the lease (section 4.4.5 of RFC 2131). The lease timer never fires before the end of that lease, and the renew timer runs half of it |
| DhcpRuns.HoldsLastReplies | app/src/main/jni/badvpn/dhcpclient/BDHCPClientCore.c:494-562 | In every run the client holds to the last offer taken, to the lease time of the last ACK taken, and to the mask, router, DNS servers and server address of the last ACK that was not of a renewal |
| DhcpPhases.PhaseAfter | app/src/main/jni/badvpn/dhcpclient/BDHCPClientCore.c:406-678 | The phase after every event: what restarts the client, what a NAK, an offer and an ACK of its server do |
| DhcpPhases.WaitsAfter | app/src/main/jni/badvpn/dhcpclient/BDHCPClientCore.c:44-51 | How long each timer runs from which event |
| DhcpPhases.AsksFourTimes | app/src/main/jni/badvpn/dhcpclient/BDHCPClientCore.c:601-626 | In every run the client asks for an offer exactly 4 times before it starts again |
| DhcpPhases.StartXid | app/src/main/jni/badvpn/dhcpclient/BDHCPClientCore.c:565-589 | A start has a new xid exactly after a NAK, at the end of a lease, and after 8 starts with the old one |
| DhcpPhases.NewXidAfterLoss | app/src/main/jni/badvpn/dhcpclient/BDHCPClientCore.c:591-678 | After a NAK or the end of a lease no start of the run uses an xid generated before |
| DhcpRuns.AddressIsConstant | app/src/main/jni/badvpn/dhcpclient/BDHCPClientCore.c:814-820 | From a report of UP to the next report of DOWN the client IP, its server and the acknowledged parameters stay |
| DhcpRuns.GoesUp | app/src/main/jni/badvpn/dhcpclient/BDHCPClientCore.c:511-540 | The client goes up exactly on an ACK from the offering server for the offered address (section 4.4.1 of RFC 2131) |
| DhcpRuns.GoesDown | app/src/main/jni/badvpn/dhcpclient/BDHCPClientCore.c:406-463 | It goes down exactly when the lease timer fires or its server sends a NAK |
| DhcpRuns.MessagesSent | app/src/main/jni/badvpn/dhcpclient/BDHCPClientCore.c:565-678 | Exactly the timers and an accepted offer send a message, unless one is being sent: a DISCOVER of a new start or a REQUEST for the offered address |
| DhcpSafety.StepKeepsValid | app/src/main/jni/badvpn/dhcpclient/BDHCPClientCore.c:406-678 | Every event keeps timers, counters, reports and lease times consistent |
| DhcpMessage.AcceptedExactly | app/src/main/jni/badvpn/dhcpclient/BDHCPClientCore.c:208-404 | A packet is taken as a reply exactly when its header is that of a reply to this client and its option field consists of well-sized options that describe the reply |
| DhcpMessage.OptionsIffWritten | app/src/main/jni/badvpn/dhcpclient/BDHCPClientCore.c:276-314 | An option field parses to a list of options exactly when it is those options, one end option and padding |
| DhcpMessage.LastOptionCounts | app/src/main/jni/badvpn/dhcpclient/BDHCPClientCore.c:316-389 | Options are accepted exactly when every known one has its size, and of each kind the last one counts |
| DhcpWritten.WrittenReplyIsRead | app/src/main/jni/badvpn/dhcpclient/BDHCPClientCore.c:208-404 | A reply written by a server to this client, in network byte order, with any padding, is read back with its type, xid, address, server, lease time, mask, router and DNS servers |
| DhcpWritten.KindsExactly | app/src/main/jni/badvpn/dhcpclient/BDHCPClientCore.c:391-404 | Exactly the message types 2, 5 and 6 are taken, as OFFER, ACK and NAK |
| DhcpWritten.SizesMean | app/src/main/jni/badvpn/dhcpclient/BDHCPClientCore.c:316-389 | Exactly the sizes RFC 2132 gives are accepted |
| DhcpClient.ParseOptions | app/src/main/jni/badvpn/dhcpclient/BDHCPClientCore.c:276-389 | The loop over the bytes is that parser |
| DhcpClient.ReadAddresses | app/src/main/jni/badvpn/dhcpclient/BDHCPClientCore.c:373-387 | The loop stores the first 16 addresses of the list |
| DhcpClient.Core.RecvHandlerDone | app/src/main/jni/badvpn/dhcpclient/BDHCPClientCore.c:208-563 | A received packet has the effect of the reply it is, or none; reports of UP and DOWN find the flag of BDHCPClient as they must |
| DhcpClient.Core.StartProcess | app/src/main/jni/badvpn/dhcpclient/BDHCPClientCore.c:565-589 | A new xid when forced or used up, a DISCOVER, the reset timer |
| DhcpClient.Core.ResetTimerHandler | app/src/main/jni/badvpn/dhcpclient/BDHCPClientCore.c:591-599 | Starts again, with a new xid after a NAK |
| DhcpClient.Core.RequestTimerHandler | app/src/main/jni/badvpn/dhcpclient/BDHCPClientCore.c:601-626 | At most 4 requests for one offer, then a new start |
| DhcpClient.Core.RenewTimerHandler | app/src/main/jni/badvpn/dhcpclient/BDHCPClientCore.c:628-646 | Renewing starts half the lease after the ACK |
| DhcpClient.Core.LeaseTimerHandler | app/src/main/jni/badvpn/dhcpclient/BDHCPClientCore.c:662-678 | The end of the lease: a new start and a report of DOWN |
| DhcpClient.Core.ReportUp | app/src/main/jni/badvpn/dhcpclient/BDHCPClient.c:81-92 | Only called when the flag says down |

## Left out

- Sockets, TLS, threads, logging, command line, reactor: callbacks are events that may come in any order
  their interfaces allow; worker-thread jobs run at the moment they are reported done.
- Allocation failure: allocations succeed. Link set-up, binding and connecting may fail; what they return is a parameter.
- Integer overflow of sizes and positions: sizes are unbounded integers except for the 16-bit ids and
  lengths, the 32-bit clock and the fields of wire formats.
- One memory block per entry: chunk tables and buffers of the assembler are separate arrays.
- PacketPassFairQueue: only which flow is being sent from, and the busy handler. Weights, scheduling order
  and the keep-alive flow are not modelled; a sink may start sending from any attached flow.
- Keep-alives and the flags byte: that a received flag reaches the sink and asks for a keep-alive is modelled, when it is set is not.
- DataProtoFlow_Route and frame buffers: which flow a frame enters is modelled, the queue of frames is not.
- Peers of client.c: C pointers are peer ids that index tables. Chat, SSL, certificates, passwords, external
  addresses and seeds are not modelled; relays are taken from the head of their list as the code does.
- LinkedList1, LinkedList3, SAvl, BAVL: sequences and maps with the operations the code uses.
- Ethernet, IPv4 and IGMP parsing in FrameDecider: frames and reports come parsed.
- Freed memory in FrameDecider: that a lost iterator is at an entry of a freed peer is modelled, what reading it
  gives is not. Entries are the same objects for as long as their peer is there.
- Timers of group entries: the time is stored in the entry; that it runs out is an event.
- BProto code generation: the emitted functions are methods that take the field as a parameter.
- OTPGenerator and OTPChecker: the passwords of a seed and the checker's answer are parameters.
- BHash, BEncryption, BRandom: parameters, as are initialization vectors.
- DHCP: bytes of sent messages, options of the constructor, and the interface below BDHCPClientCore.
- dostest, examples, udpgw, tun2socks, ncd, server, flooder, and all Java: not needed by the above.
- RoundTrip.LosslessInOrder: cancels that come after part of a frame was written are excluded, because the property is false for them (CancelHazard.CancelIsHarmlessExactly).
- AssemblerSafety.ReduceTimesFaithful: ages are preserved, but the table is not that of an unbounded clock, because expired frames removed at renormalisation free entries early.
- SPProto.RoundTrip: no claim about secrecy or forgery; hash and cipher are arbitrary functions.
- DhcpRuns.EveryRun: two generated xids may be equal by chance, so xids are told apart by when they were generated.
