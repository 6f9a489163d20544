# Verified model of the data-moving cores of the TCP/UDP stack

This project models, in Dafny, the parts of the hardware stack that move bytes and keep
flow-control state, and proves each of them against a specification on plain byte
sequences. Every machine is a class whose fields are its registers and whose `Step` method
is one clock edge; valid and ready inputs are free parameters of `Step`, so every theorem
holds under every schedule and every stall pattern. `Valid()` is the invariant of all
reachable states: the constructor establishes it and every `Step` keeps it. Ghost histories
record what crossed each interface, the contracts of `Step` say exactly how they grow, and
the theorems say what they amount to.

Widths are symbolic: `B` bytes per beat, `N` bytes per NoC flit, rings of `R` and `T` bytes
(pointer words count to `2R` and `2T`), and in the checksum engine `B = 2^levels` with 2 to 8
levels. A bus word is a byte sequence, most significant (first) byte first; a frame is the
concatenated bytes of its beats without the padding of the last one (`Streams`).

## The results

- **UDP end to end** (`UdpLoop`, `UdpDrain`): a transmit path wired to a receive path, each made of an
  input controller, the checksum engine and an output controller. For all addresses, ports
  and payloads, what is delivered is a prefix of what was accepted, and everything once
  nothing is inside: no datagram is rejected, altered, lost, duplicated or reordered. The two
  paths never deadlock: every cycle that nobody outside holds up lowers a rank, and with no
  datagram half handed over they run until everything accepted is delivered. The
  receive path alone (`RxPath`, `UdpAccept`), fed with any frames, delivers header and payload
  of a frame only if its RFC 1071 sum is all ones and, without wrong frames of one beat, of
  every such frame.
- **TCP transmit** (`TcpTx`): the frames handed over are the segments with the checksum of
  section 3.1 of RFC 9293 in place, and the path runs until all of them are out.
- **Checksum** (`OnesComplement`, `AdderTree`, `ChksumPipe`, `ChksumInsert`, `ChksumEngine`,
  `Sealing`): the tree, the double fold and the accumulator compute the sum of section 1 of
  RFC 1071 for every frame and no lane overflows; the engine writes it into each frame and
  changes nothing else; re-summing gives all ones; between frames it runs empty.
- **DRAM controller** (`DramSpec`, `DramDatapath`, `DramStore`, `DramController`,
  `DramLoad`): the controller refines a byte memory that serves one request after the other,
  for every alignment, size and stall pattern; a store is a memcpy, a load after a store
  returns the bytes, every request ends.
- **Receive flow control and RPC application** (`RecvFlow`, `PayloadCopier`, `RpcApp`,
  `FlowQueue`, `RpcEcho`): in every interleaving of application cycles with the receive
  pipeline, the payload copier, the acknowledgement engine and the sender, and for every
  acknowledgement number a packet may carry, the receive ring is safe, delivery is in order
  and exactly once, every accepted byte reaches its ring slot before it is committed, and the
  application consumes whole requests and reserves each reply in full although it acts on old
  snapshots; the transmit ring is safe until an acknowledgement overreaches (see below). Flows
  are served in turn, the flow FIFO never refuses an entry, and every unstalled cycle brings
  application and copier closer to done.
- **Formatters** (`TwinInserter`, `IpToEth`, `TcpToStream`, `Realigner`, `EthStrip`,
  `Verdicts`, `TcpRxStrip`): header insertion and header stripping with twin state machines,
  stated on IP headers, Ethernet frames and TCP segments; each machine finishes what it takes.
- **Bypassed memory** (`SeqNumMem`), **software checksum** (`SoftChecksum`) and **simulator
  framing** (`SimFraming`).

## What the code does that its users should know

Each of these is a theorem with its exact condition.

- After a frame of a single beat with a wrong checksum, the UDP and the TCP receive output
  controllers drop the next frame too: they wait for another last beat
  (`Verdicts.DropIsLocal`, with one such pair of well-formed frames each in
  `UdpRxOutput.GoodFrameLost` and `TcpRxStrip.GoodFrameLost`).
- A DRAM load is right for every memory contents if and only if its address is a multiple of
  the flit size or the request lies within one line; any other load reads a zero byte where
  the first line ends (`DramLoad.LoadExactlyWhenServable`, `DramLoad.OverrunReadsZero`).
- The advertised window is the space that a head snapshot showed before the packet. It admits
  bytes the ring has no room for exactly when the packet starts at the next byte, fits above
  the snapshot and is longer than what the application consumed since
  (`RecvFlow.WindowOverstated`, one such state in `RecvFlow.WindowOverstatedOnce`).
- The transmit acknowledgement engine also takes the number right behind the send number if
  something is outstanding and neither wraps; a peer that has received more than a sender that
  went back may well send it. The transmit pointers stay sound if and only if an acknowledgement
  does not overreach like that (`RecvFlow.AckKeepsIff`). After one that does, any number at all
  is taken (`RecvFlow.AnyAckTaken`), and if the number was of a queued byte, a reply and one
  late acknowledgement leave more bytes in the transmit ring than it holds
  (`RecvFlow.OverreachBreaks`, one run in `RecvFlow.OverreachOnce`); if it was not, the ring is
  over-full at once (`RecvFlow.OverreachPastTail`).
- An acknowledgement of sent data is not taken while the next sequence number to be sent is
  2^32 - 1 (`RecvFlow.AckTakenIff`).
- The RPC application sends one write beat for an empty reply; the beat count is the needed
  one exactly for replies that are not empty (`RpcApp.BeatsExact`).
- `csum` is right on all buffers of a given size exactly up to 131076 bytes; one byte more,
  131076 bytes 0xFF and one byte 0x01, is wrong (`SoftChecksum.RightUpTo`).
- The Ethernet formatter offers a header with its own frame's addresses if and only if the
  frame is plain or has the addresses that were offered last
  (`EthStrip.AddressesRightIff`, a plain and a VLAN frame in `EthStrip.StaleAddresses`).
- `tcp_to_stream` shifts its output mask by `padbytes` bits where bytes are meant; only
  padding is affected (`TcpToStream.ShownSame`, `TcpToStream.ClearedValue`).

## Model

| member | source | states |
|---|---|---|
| UdpLoop.Loop.Step | frontend/udp_to_stream.sv:72-184 | one clock edge of transmit and receive path wired together keeps the joint invariant; the accepted and the delivered histories grow by exactly the handshakes on their interfaces; a cycle that takes nothing in and is held up by nobody outside lowers a rank unless neither path can move |
| UdpDrain.Drain | frontend/udp_stream_format.sv:81-251 | from any reachable state with no datagram half handed over, and with a destination that takes everything, the paths come to rest after finitely many cycles, and by then every accepted datagram has been delivered |
| UdpDrain.NoDeadlock | frontend/udp_to_stream.sv:72-184 | paths that cannot move, with no datagram half handed over, have nothing inside |
| UdpDrain.InStep | frontend/udp_rx_chksum_input_ctrl.sv:165-255 | the transmit path has handed over one header more than data frames exactly while the receive controller is inside a datagram |
| UdpLoop.Loop.Correct | frontend/udp_stream_format.sv:81-251 | in every reachable state the delivered header blocks and payload frames are prefixes of the accepted ones |
| UdpLoop.Loop.Complete | frontend/udp_stream_format.sv:81-251 | when nothing is inside, every accepted datagram has been delivered, header and payload |
| UdpLoop.TxBlockGood | frontend/udp_tx_chksum_input_ctrl.sv:106-118 | the transmit block carries the addresses, ports and length of the request and a clear checksum field |
| UdpLoop.SealedBack | frontend/udp_rx_chksum_output_ctrl.sv:103-105 | a sealed UDP frame that passes through the receive engine comes back with its checksum field zero and everything else unchanged |
| UdpLoop.AllAccepted | frontend/udp_rx_chksum_output_ctrl.sv:184-210 | frames whose checksum field came out zero are all accepted, none is skipped |
| TxPath.Transmit.Step | frontend/udp_to_stream.sv:72-184 | one clock edge of input controller, engine and output controller together, with exact valid signals and histories; only what comes in adds work, what goes out lowers it, and an unstalled cycle does some |
| TxPath.Transmit.Correct | frontend/udp_tx_chksum_output_ctrl.sv:158-298 | pseudo-headers and sealed frames without them are handed over in order, and the open frame is the beginning of the next one |
| TxPath.Transmit.Complete | frontend/udp_tx_chksum_output_ctrl.sv:158-298 | at rest everything taken has been handed over |
| TxPath.NoDeadlock | frontend/udp_tx_chksum_output_ctrl.sv:158-298 | a transmit path that cannot move, with a ready destination and no packet half handed over, has nothing inside |
| TxPath.Drain | frontend/udp_tx_chksum_output_ctrl.sv:158-298 | left alone, it comes to rest after finitely many cycles |
| TcpTx.Correct | frontend/tcp_tx_chksum_output_ctrl.sv:93-279 | every frame handed over is the 20-byte header with its RFC 9293 checksum followed by the payload, as long as announced, and every header handed over has source, destination, length and protocol of its segment |
| TcpTx.Complete | frontend/tcp_tx_chksum_output_ctrl.sv:93-279 | at rest every segment handed over is on the wire |
| TcpTx.Drain | frontend/tcp_tx_chksum_output_ctrl.sv:93-279 | with a destination that takes everything and no segment half handed over, the path comes to rest, and by then every segment handed over is on the wire |
| TcpTx.BlockLen | frontend/tcp_tx_chksum_input_ctrl.sv:111-115 | the pseudo-header stored holds source, destination, length, zero and protocol in this order |
| TcpTx.PseudoOrder | frontend/tcp_tx_chksum_input_ctrl.sv:111-115 | the order in which this stack stores the pseudo-header gives the checksum of the order in RFC 9293 |
| TcpTx.SealedSegment | frontend/tcp_tx_chksum_input_ctrl.sv:106-115 | sealing pseudo-header, cleared header and payload and cutting the pseudo-header off gives the segment on the wire |
| RxPath.Receive.Step | frontend/udp_stream_format.sv:81-251 | one clock edge of the receive path, with exact valid signals and histories; only what comes in adds work, and an unstalled cycle does some |
| RxPath.Receive.Correct | frontend/udp_rx_chksum_output_ctrl.sv:137-290 | headers and payloads delivered are, in order, among those that the RFC 1071 sums of the frames fed admit |
| RxPath.Receive.Complete | frontend/udp_rx_chksum_output_ctrl.sv:137-290 | at rest they are all of those |
| UdpAccept.JudgeIsDeemed | frontend/udp_rx_chksum_output_ctrl.sv:184-262 | the receiver's verdict on the beats leaving the engine is the verdict by sums and lengths of the frames fed |
| UdpAccept.OnlyRight | frontend/udp_rx_chksum_output_ctrl.sv:187-309 | whatever is delivered belongs to a frame whose sum is all ones |
| UdpAccept.EveryRight | frontend/udp_rx_chksum_output_ctrl.sv:187-309 | without wrong frames of one beat, exactly the frames whose sum is all ones are delivered |
| UdpAccept.ClearedIff | frontend/udp_rx_chksum_output_ctrl.sv:103-105 | the UDP and the TCP receive test hold of the sealed frame exactly if the sum of the frame fed is all ones |
| UdpAccept.PassesByBytes | frontend/udp_rx_chksum_output_ctrl.sv:103-105 | the UDP and the TCP test on the first beat are tests on the bytes of the frame |
| ChksumFront.Front.Correct | frontend/udp_tx_chksum_input_ctrl.sv:140-295 | input controller and engine together emit the sealed images of the packets taken |
| ChksumFront.Front.Complete | frontend/udp_tx_chksum_input_ctrl.sv:140-295 | at rest all of them are out |
| PrefixInserter.Inserter.Step | frontend/udp_tx_chksum_input_ctrl.sv:140-295 | one clock edge; frames emitted are header blocks followed by payloads with exact last and padbytes; exact ready and valid signals |
| PrefixInserter.PassSpill | frontend/tcp_tx_chksum_input_ctrl.sv:199-283 | a last beat whose bytes do not fit leaves exactly the rest for one more beat |
| PrefixInserter.PassFit | frontend/udp_rx_chksum_input_ctrl.sv:165-255 | a last beat that fits completes the frame with the right padbytes |
| PseudoStripper.Stripper.Step | frontend/udp_tx_chksum_output_ctrl.sv:158-298 | one clock edge of the twin machines; idle together, one header and one frame each, the header constant until taken, padding zero |
| PseudoStripper.PassMiddle | frontend/tcp_tx_chksum_output_ctrl.sv:153-250 | a beat in the middle keeps sent and held bytes equal to the bytes taken and the counter equal to what is left |
| PseudoStripper.OneBeat | frontend/udp_tx_chksum_output_ctrl.sv:173-193 | the length test and the last flag agree on which frames have one beat |
| UdpRxOutput.Receiver.Step | frontend/udp_rx_chksum_output_ctrl.sv:137-330 | one clock edge: a good frame yields its header block and payload, a bad frame nothing |
| Verdicts.DropIsLocal | frontend/udp_rx_chksum_output_ctrl.sv:253-262 | in the UDP and the TCP receive controller, dropping a frame leaves the next good frame alone if and only if the dropped frame had more than one beat |
| UdpRxOutput.GoodFrameLost | frontend/udp_rx_chksum_output_ctrl.sv:253-262 | a well-formed bad frame of one beat and the well-formed good frame lost with it |
| Verdicts.JudgeIsGood | frontend/udp_rx_chksum_output_ctrl.sv:184-262 | without bad one-beat frames the accepted frames are exactly the good ones |
| OnesComplement.RfcSumIsCanon | frontend/chksum_calc.sv:527-550 | the one's complement sum of RFC 1071 is the canonical residue of the plain word sum |
| OnesComplement.ByteOrderIndependence | frontend/chksum_calc.sv:334-342 | section 2(B) of RFC 1071: summing from the low end gives the byte-swapped sum |
| OnesComplement.StoredChecksum | frontend/chksum_calc.sv:596-597 | the complement, written low byte first, is the RFC 1071 checksum in network order |
| OnesComplement.PassesIff | frontend/udp_rx_chksum_output_ctrl.sv:103-105 | a frame passes exactly when its word sum is positive and divisible by 65535 |
| OnesComplement.InsertThenVerify | frontend/chksum_calc.sv:559-613 | a frame that is not all zero passes once its complement is written into its zeroed field |
| AdderTree.LanesTotal | frontend/chksum_calc.sv:334-342 | level 0 adds up to the little-endian word sum and fits 17 bits |
| AdderTree.PairsTotal | frontend/chksum_calc.sv:414-425 | a level keeps the total and no lane overflows its declared width |
| AdderTree.AccumulateIsCanon | frontend/chksum_calc.sv:527-550 | the double fold is exact one's complement addition, within the accumulator width |
| ChksumPipe.SumPipe.Step | frontend/chksum_calc.sv:467-555 | one clock edge of tree and accumulator; each finished frame yields exactly its checksum, and the tree never stalls |
| ChksumPipe.TreeStep | frontend/chksum_calc.sv:414-455 | all tree levels advance together and keep the total of the beat they hold |
| ChksumPipe.SumStep | frontend/chksum_calc.sv:527-550 | the accumulator holds the canonical sum of the frame so far and restarts after its last beat |
| ChksumInsert.Inserter.Step | frontend/chksum_calc.sv:559-613 | one clock edge; each frame leaves with its own checksum in place |
| ChksumInsert.InsertIsPatched | frontend/chksum_calc.sv:559-613 | the registered offset and split flag patch exactly the two lanes of the field, also across two beats |
| SkidBuffer.Skid.Step | frontend/chksum_calc.sv:659-726 | beats leave once and in order; ready is never high while the spare register is occupied, and its next value is exact |
| ChksumEngine.Engine.Step | frontend/chksum_calc.sv:191-202 | one clock edge of the whole engine, with exact handshakes and the popping of both FIFOs; a rank rises only with a beat taken in and falls in every unstalled cycle unless only beats of an unfinished frame are left |
| ChksumEngine.Engine.Correct | frontend/chksum_calc.sv:559-726 | what left, and the beat on offer, is a prefix of the patched frames that were fed |
| ChksumEngine.Engine.Complete | frontend/chksum_calc.sv:559-726 | a quiet engine has delivered all of it |
| ChksumEngine.Engine.Settled | frontend/chksum_calc.sv:467-726 | between frames an engine whose rank cannot fall has nothing inside |
| ChksumEngine.OutFalls | frontend/chksum_calc.sv:559-726 | the inserting half does some work in every cycle with a ready reader unless it waits for a checksum |
| ChksumPipe.SumFalls | frontend/chksum_calc.sv:467-555 | the tree and the accumulator come closer to empty in every cycle that holds anything |
| Sealing.EngineSeals | frontend/chksum_calc.sv:334-613 | under one command the outcome is every frame sealed with its own checksum |
| Sealing.SealIsRfc | frontend/chksum_calc.sv:596-597 | a sealed frame holds the RFC 1071 checksum in its field and is unchanged elsewhere |
| Sealing.SealTwice | frontend/chksum_calc.sv:559-613 | sealing a sealed frame writes zero back: the sum of a sealed frame is all ones |
| DramController.Controller.Step | dram/avalon_dram_controller_ctrl.sv:74-270 | one clock edge; exact handshakes, histories, stable responses, nothing changes while stalled, and a rank that every unstalled cycle decreases |
| DramController.Controller.Copy | dram/avalon_dram_controller_ctrl.sv:171-224 | each payload flit becomes one masked line write and the store invariant is kept |
| DramController.Controller.Finish | dram/avalon_dram_controller_ctrl.sv:225-247 | the drain write, then the acknowledgement |
| DramController.Controller.Fetch | dram/avalon_dram_controller_ctrl.sv:115-138 | the line of the current address is fetched, the header comes first |
| DramController.Controller.Reply | dram/avalon_dram_controller_ctrl.sv:139-170 | header and data flits of a load, a new line exactly when the address leaves the line |
| DramController.Refines | dram/avalon_dram_controller_datap.sv:158-303 | between requests memory and responses are those of the plain memory serving the same requests |
| DramSpec.AnswerShape | dram/avalon_dram_controller_datap.sv:238-298 | the first flit of an answer says which operation is answered, to whom and for how many bytes, and announces exactly the data flits that follow, as many as the bytes need |
| DramController.AckMeansStored | dram/avalon_dram_controller_ctrl.sv:237-247 | when the acknowledgement is offered, [addr, addr+size) holds the payload and every other byte is unchanged |
| DramController.RankPositive | dram/avalon_dram_controller_ctrl.sv:95-247 | the rank is zero exactly in READY, so every request ends after finitely many unstalled cycles |
| DramController.LoadBody | dram/avalon_dram_controller_datap.sv:208-236 | after a data flit the line register still serves the next address, or a new line is fetched |
| DramDatapath.FlitMaskMeaning | dram/avalon_dram_controller_datap.sv:172-184 | the flit mask and the flit counter mark exactly the payload bytes that belong to the request |
| DramDatapath.FirstWindow | dram/avalon_dram_controller_datap.sv:248-275 | the first write carries the bytes up to the next flit boundary, at their place in the line |
| DramDatapath.CopyWindow | dram/avalon_dram_controller_datap.sv:248-275 | a body write carries the rest of the saved flit and the head of the new one |
| DramDatapath.DrainWindow | dram/avalon_dram_controller_datap.sv:248-275 | the drain write carries what is left of the saved flit |
| DramDatapath.WindowExtends | dram/avalon_dram_controller_datap.sv:138-141 | such a write extends a partial memcpy and touches nothing else |
| DramStore.TakeFirst | dram/avalon_dram_controller_datap.sv:186-236 | address, byte counter, save register and memory after the first flit |
| DramStore.TakeCopy | dram/avalon_dram_controller_datap.sv:186-236 | the same after every later flit |
| DramStore.Drained | dram/avalon_dram_controller_ctrl.sv:225-236 | the drain write completes the memcpy |
| DramStore.NothingLeft | dram/avalon_dram_controller_datap.sv:184-184 | with the byte counter at zero no drain is needed |
| DramLoad.LoadReturnsMemory | dram/avalon_dram_controller_datap.sv:143-148 | a servable load returns the memory, across any number of lines |
| DramLoad.LoadExactlyWhenServable | dram/avalon_dram_controller_datap.sv:143-148 | a load is right for every memory if and only if it is servable |
| DramLoad.OverrunReadsZero | dram/avalon_dram_controller_datap.sv:143-148 | any other load returns a zero where the first line ends |
| DramLoad.RoundTrip | dram/avalon_dram_controller_ctrl.sv:115-170 | a load after a store, with other requests between that write elsewhere, is answered with a header to the requester that announces the flits behind it, and with the stored bytes |
| RecvFlow.AcceptIff | recv_pipe/est_pipe.sv:279-303 | a slice of the stream is accepted exactly when it starts at the next byte and fits above the head snapshot; the window is that space |
| RecvFlow.PacketKeeps | recv_pipe/rx_ack_engine.sv:20-33 | for any lost, repeated or reordered slice the accepted bytes stay a prefix of the stream and the ring stays safe |
| RecvFlow.Lockstep | recv_pipe/est_pipe.sv:285-302 | ack number and tail word stand for the same byte count |
| RecvFlow.RingSafe | recv_pipe/est_pipe.sv:279-287 | on the pointer words: commit between head and tail, neither ring over-full, the transmit ring unless an acknowledgement overreached |
| RecvFlow.WindowOverstated | recv_pipe/est_pipe.sv:303-303 | the advertised right edge lies beyond head and ring exactly when the packet is the next one, fits above the snapshot and is longer than what was consumed since |
| RecvFlow.WindowOverstatedOnce | recv_pipe/est_pipe.sv:303-303 | one such state |
| RecvFlow.ReadHeadKeeps | recv_pipe/est_pipe.sv:213-234 | head snapshots in flight stay in order and safe |
| RecvFlow.CopyBytesKeep | recv_pipe/rx_payload_store_buf_cp_ctrl.sv:135-152 | copying the next bytes of an accepted payload touches neither committed nor copied ones |
| RecvFlow.CommitKeeps | recv_pipe/rx_payload_store_buf_cp_datapath.sv:60-62 | committing a copied payload keeps the ring equal to the stream |
| RecvFlow.AckTakenIff | recv_pipe/tx_ack_engine.sv:21-47 | of all 32-bit numbers exactly those are taken that are new and of sent data, unless the send number is the last of the space, and the one behind the send number if something is outstanding and nothing wraps |
| RecvFlow.AnyAckTaken | recv_pipe/tx_ack_engine.sv:29-34 | after the latter every number is taken |
| RecvFlow.AckKeeps | recv_pipe/tx_ack_engine.sv:21-64 | whatever number a packet carries, the receive side stays sound, and the transmit side unless it overreaches |
| RecvFlow.AckKeepsIff | recv_pipe/tx_ack_engine.sv:36-64 | the transmit pointers stand for sound counters again if and only if the acknowledgement does not overreach |
| RecvFlow.OverreachBreaks | recv_pipe/tx_ack_engine.sv:29-64 | from every sound state, an overreach to a queued byte, a reply into the space shown and a late acknowledgement over-fill the transmit ring |
| RecvFlow.OverreachPastTail | recv_pipe/tx_ack_engine.sv:36-64 | an overreach beyond the tail over-fills a transmit ring of two bytes or more at once |
| RecvFlow.OverreachOnce | recv_pipe/tx_ack_engine.sv:29-64 | one such run, seven bytes in a ring of four |
| RecvFlow.SegmentFits | send_pipe/segment_calculator.sv:11-24 | a segment never reaches beyond the tail and is the longest allowed: a full one, or fewer than 32 bytes stay behind it; whole 32-byte words or up to the tail |
| RecvFlow.SendKeeps | send_pipe/protocol_logic_pipe.sv:318-362 | sending the next segment, or one again from the oldest unacknowledged byte, keeps the send number between head and tail |
| PayloadCopier.CycleKeeps | recv_pipe/rx_payload_store_buf_cp_ctrl.sv:93-182 | every cycle of the copier keeps its flow sound, its copied bytes in place and the backlog exact |
| PayloadCopier.PipeReceive | recv_pipe/est_pipe.sv:402-413 | queueing a packet with its decision extends the backlog of its flow by exactly the accepted payload |
| PayloadCopier.PipeCycle | recv_pipe/rx_payload_store_buf_cp_datapath.sv:60-100 | behind every commit counter comes the backlog of that flow, so commit never passes tail |
| PayloadCopier.EntryIsNext | recv_pipe/rx_payload_store_buf_cp_datapath.sv:48-62 | the entry in the copier is what comes next in the stream of its flow |
| PayloadCopier.CourseKeeps | recv_pipe/rx_payload_store_buf_cp_ctrl.sv:93-182 | no handshake is skipped or out of order: a rejected payload has its slab freed, an accepted one is committed only after its last transfer is reported done |
| PayloadCopier.RankFalls | recv_pipe/rx_payload_store_buf_cp_ctrl.sv:93-182 | every unstalled cycle brings the copier closer to the next entry |
| RpcApp.AppKeeps | apps/rpc_echo_app_ctrl.sv:144-292 | every cycle of the application keeps the flow it serves sound, whatever its snapshots are worth by then |
| RpcApp.SnapshotsAge | apps/rpc_echo_app_datap.sv:139-161 | no step of another engine invalidates a snapshot |
| RpcApp.GivesUpIff | apps/rpc_echo_app_datap.sv:128-136 | the application requeues a flow exactly when header, request or reply space was missing at its snapshot |
| RpcApp.HeaderFromStream | apps/rpc_echo_app_datap.sv:114-116 | the header read from the ring is the request header in the peer's stream |
| RpcApp.MoveHead | apps/rpc_echo_app_datap.sv:106-107 | the head moves by one whole request |
| RpcApp.MoveTail | apps/rpc_echo_app_datap.sv:103-104 | the transmit tail moves by its reply |
| RpcApp.WriteBeat | apps/rpc_echo_app_datap.sv:121-177 | the write-beat counter reaches the end after exactly the beats the reply needs, one at least |
| RpcApp.BeatsExact | apps/rpc_echo_app_datap.sv:121-177 | beats equal ceil(wr_len / 32) exactly when wr_len is positive |
| RpcApp.CourseKeeps | apps/rpc_echo_app_ctrl.sv:144-292 | no handshake is skipped or out of order: pointers are read before they are used, head and tail move only after every beat of the reply is handed over and the write engine is done |
| RpcApp.RankFalls | apps/rpc_echo_app_ctrl.sv:144-292 | every cycle with the awaited handshake brings the application closer to giving the flow back |
| FlowQueue.QueueKeeps | apps/rpc_echo_app.sv:327-357 | every announced flow is in exactly one place after every cycle, and an entering flow finds room |
| FlowQueue.NeverFull | apps/rpc_echo_app.sv:343-357 | the FIFO has room whenever something is about to enter |
| FlowQueue.ServedInTurn | apps/rpc_echo_app.sv:343-357 | a queued flow is served after as many dequeues as its position |
| RpcEcho.Rpc.Step | apps/rpc_echo_app_ctrl.sv:144-292 | one clock edge of application and flow queue; only its own pointers move, only forward, and only after the whole reply has been written; a rank falls in every unstalled cycle |
| RpcEcho.Rpc.Receive | recv_pipe/est_pipe.sv:279-413 | the receive decision on any flow at any time, with its exact condition, the window it advertises and the queue entry |
| RpcEcho.Rpc.ReadStage | recv_pipe/est_pipe.sv:200-234 | the read stage on any flow at any time |
| RpcEcho.Rpc.CopierStep | recv_pipe/rx_payload_store_buf_cp_ctrl.sv:93-182 | one clock edge of the copier at any time: transfers go to the ring of its entry's flow, commit moves by the whole payload, with the handshakes of the entry complete and in order |
| RpcEcho.Rpc.Ack | recv_pipe/tx_ack_engine.sv:21-64 | any acknowledgement number at any time: the transmit head moves exactly to a new number within what was sent, and the flow stays clean exactly if the number does not overreach |
| RpcEcho.Rpc.Send | send_pipe/protocol_logic_pipe.sv:318-362 | the sender moves on or goes back at any time, by the segment that the pointers give: queued bytes only, and as many as allowed |
| RpcEcho.Sound | apps/rpc_echo_app_datap.sv:104-161 | in every reachable state and for every flow, after any acknowledgements: safe receive pointers, delivered prefix, whole requests consumed and answered; the transmit ring is safe until an acknowledgement overreaches |
| SeqNumMem.Mem.Step | init_seq_num_mem.sv:34-206 | a valid response is the word of a plain array after all earlier writes, at the oldest unanswered address, on both ports and under any backpressure |
| IpToEth.Formatter.Step | frontend/ip_to_ethstream.sv:134-323 | one clock edge of both machines; exact handshakes, the offered header constant until taken; padding masked as in the code; without stalls every cycle does some of the work taken on |
| IpToEth.Inserts | frontend/ip_to_ethstream.sv:148-219 | the frames sent are IP headers followed by payloads, in order |
| IpToEth.Lengths | frontend/ip_to_ethstream.sv:156-164 | a packet takes a data frame exactly when bytes 2 and 3 of its header announce more or less than 20 bytes, frames with a payload of the announced length have that length, and it is the length handed over |
| IpToEth.OneEach | frontend/ip_to_ethstream.sv:260-311 | the machines are idle together, and then each packet has yielded one Ethernet header with its length and one frame |
| TwinInserter.PassMasked | frontend/ip_to_ethstream.sv:99-103 | masking the padding of a beat changes nothing that matters |
| TwinInserter.DataInserts | frontend/ip_to_ethstream.sv:148-219 | what the shared data machine has sent and taken, in every state |
| TcpToStream.Formatter.Step | frontend/tcp_to_stream.sv:156-355 | one clock edge of both machines; exact handshakes, the offered fields constant until taken; padding masked as in the code; without stalls every cycle does some of the work taken on |
| TcpToStream.Inserts | frontend/tcp_to_stream.sv:175-284 | each frame is a header and exactly as many payload bytes as its TCP length announces |
| TcpToStream.CountersApart | frontend/tcp_to_stream.sv:202-266 | to-send and to-receive differ by the 20 header bytes once the header is out |
| TcpToStream.CountersDecide | frontend/tcp_to_stream.sv:211-261 | the counters decide exactly what a last flag and a pad count would |
| TcpToStream.ShownSame | frontend/tcp_to_stream.sv:108-118 | the output mask touches only padding |
| TcpToStream.ClearedValue | frontend/tcp_to_stream.sv:108-108 | read as a number, the masked word has lost exactly its lowest `padbytes` bits |
| EthStrip.Formatter.Step | frontend/eth_frame_format.sv:147-303 | one clock edge of both machines; draining takes at most two beats; without stalls every cycle does some of the work taken on |
| EthStrip.Strips | frontend/eth_frame_format.sv:130-269 | the output frames are the input frames without 14 or 18 bytes, what is out of the frame under way is the beginning of its payload, and the headers offered are exact |
| EthStrip.StripsFrames | frontend/eth_frame_format.sv:130-269 | for plain and tagged frames given field by field: their payloads, in order, and at rest all of them; each header with its type, plain ones with their addresses |
| EthStrip.FramesFit | frontend/eth_frame_format.sv:147-180 | every such frame with a payload meets what the machine asks of its input, however it is cut into beats |
| EthStrip.AddressesRightIff | frontend/eth_frame_format.sv:168-177 | a header is offered with its own frame's addresses exactly for plain frames and for repeated addresses; its type is always right |
| EthStrip.StaleAddresses | frontend/eth_frame_format.sv:168-172 | a VLAN frame after a plain one is offered with the addresses of the plain one |
| EthStrip.Empty | frontend/eth_frame_format.sv:236-259 | last and padbytes are exact although the counter is one bit wider than padbytes |
| TcpRxStrip.Formatter.Step | frontend/rx_tcp_format_output_ctrl.sv:127-370 | one clock edge of both machines; draining takes at most two beats; without stalls every cycle does some of the work taken on |
| TcpRxStrip.Strips | frontend/rx_tcp_format_output_ctrl.sv:127-310 | for data offsets 5 to 15 and any payload, the output is what follows pseudo-header and TCP header, what is out of the frame under way is the beginning of its payload, and a bad frame yields nothing |
| TcpRxStrip.StripsSegments | frontend/rx_tcp_format_output_ctrl.sv:101-310 | for segments given as pseudo-header, header of 4 times its data offset, and payload: their fields and their payloads, options gone, in order, and at rest all of them |
| TcpRxStrip.SegmentsFit | frontend/rx_tcp_format_output_ctrl.sv:101-102 | every segment of announced length meets what the machine asks of its input, however it is cut into beats |
| TcpRxStrip.Reached | frontend/rx_tcp_format_output_ctrl.sv:146-214 | the header end is found in whatever line it lies, and the byte counter is exact |
| TcpRxStrip.GoodFrameLost | frontend/rx_tcp_format_output_ctrl.sv:285-296 | a well-formed bad frame of one beat and the well-formed good frame lost with it |
| Realigner.TailsAre | frontend/eth_frame_format.sv:90-99 | each output frame is its input frame without the header |
| Realigner.Pass | frontend/rx_tcp_format_output_ctrl.sv:231-254 | header, sent bytes and the two shifted registers stay equal to the bytes taken |
| Realigner.Flush | frontend/rx_tcp_format_output_ctrl.sv:255-284 | at most two beats empty the registers, with exact padbytes |
| SoftChecksum.CSum | sim_dpi/testing_utils.cpp:21-45 | the loop folds the little-endian word sum, odd byte included |
| SoftChecksum.FoldedIff | sim_dpi/testing_utils.cpp:40-42 | the two folds are right exactly when the second does not carry |
| SoftChecksum.MeetsRfcIff | sim_dpi/testing_utils.cpp:21-45 | the stored bytes are the RFC 1071 checksum exactly then |
| SoftChecksum.RightUpTo | sim_dpi/testing_utils.cpp:21-45 | right on all buffers of n bytes if and only if n is at most 131076 |
| SoftChecksum.AddTcpChecksum | sim_dpi/testing_utils.cpp:48-80 | only the checksum field of the segment changes, to the checksum over pseudo-header and cleared segment |
| SoftChecksum.AgreesWithHardware | sim_dpi/testing_utils.cpp:48-80 | for every segment the software leaves exactly the bytes the hardware puts on the wire |
| SimFraming.Packetizer.GetData | sim_dpi/sim_network_side_queue.cpp:51-96 | the next B bytes or the rest with zeros behind, last and padbytes exact; a new packet when the buffer is used up; no valid word without one |
| SimFraming.Reassembler.PutData | sim_dpi/sim_network_side_queue.cpp:188-205 | the bytes without padding are appended, and the last word sends the packet |
| SimFraming.Transfer | sim_dpi/sim_network_side_queue.cpp:51-96 | every packet becomes ceil(len/B) words, last only on the final one, and is rebuilt byte for byte |

## Left out

- Liveness under unfair schedules: the ranks fall in cycles in which the FIFOs show their heads and the neighbours are ready; that such cycles keep coming is up to the environment.
- A full checksum FIFO: stage 0 of the adder tree is loaded unconditionally, so `ChksumPipe` takes the checksum FIFO as never full; both FIFOs are unbounded sequences whose heads may be shown late.
- Checksum start offset and initial value: all clients tie them to zero; only insertion offset and enable are modelled.
- `data_masker` is not part of this model as a module; its effect, zero bytes in the padding of a last beat, is.
- The rule of RFC 768 that a computed zero checksum is sent as all ones: the code does not substitute it.
- Buses wider than 128 bytes in the UDP and TCP transmit and UDP receive paths: the UDP controllers cut the checksum offset to seven bits.
- Length fields: the stream machines take the lengths announced in headers to match the frames, and 16-bit lengths not to overflow, as their sources do.
- DRAM message types other than load and store, source coordinates of the response header, and address wrap-around at the end of the address space; the line is 2N bytes wide as the write shift needs; `resp_msg_len_reg` is not written during stores, where nothing reads it.
- DRAM requests of size zero and a `msg_len` other than ceil(size/N): the flit counters would wrap.
- Stages of `est_pipe`: each packet of a flow sees the state its predecessor wrote; the pointer memories are atomic; duplicate-acknowledgement and dropped-packet counters are not part of this model.
- The temporary buffer: a queue entry carries its payload; `wr_circ_buf` and `rd_circ_buf` appear as writes and reads of ring bytes, a transfer of 32 bytes at a time.
- Sequence numbers of the transmit side after an acknowledgement overreached: pointers and engines go on as the code does, but their counters mean nothing any more.
- Timers, windows and retransmission flags of the send pipeline: when it sends, and whether new bytes or old ones, is an input.
- Reply contents of the RPC application: a constant pattern; only lengths, beats and ring space are modelled.
- The Ethernet header assembler behind `ip_to_ethstream`: its answer is an input.
- Addresses of VLAN frames: what the code offers is modelled, not what the frame says.
- The frame size that `eth_frame_format` passes on beside the header, less 14 or 18.
- `tcp_to_stream` with a data offset other than 5: the save register holds 20 header bytes.
- Timestamps, debug ports, counters and resets.
- `ip_stream_format`, `rx_tcp_format_input_ctrl`, the pipelined formatters, `flowid_manager`, the wrappers, and the trace, socket and ARP code of the simulator.
- Fetching packets: what the backend delivers is an input of `get_data`; protocol filters, ARP and sockets are left out.
