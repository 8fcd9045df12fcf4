# hairgap: a verified model

hairgap moves a byte stream over a link that only goes one way and loses packets.
The sender cuts its input into chunks, encodes each chunk with an erasure code
(wirehair) and frames the resulting packets with BEGIN, DATA and END. The receiver
rebuilds the chunks and never answers. Each side is three threads joined by two
bounded channels, and the sender paces itself with a rate limiter.

The Dafny files follow the program:

- `Arithmetic.dfy`: the few facts about division, remainders and quotients that the proofs share.
- `Wire.dfy`, `Config.dfy`: packet format, error codes and limits, numeric checks of a sender configuration.
- `Erasure.dfy`: the erasure code as four functions (`accepts`, `symbol`, `decodable`, `recover`) and the laws `Sound` that hairgap relies on. `SystematicIsSound` shows that a simple code meets all of them, so no result below is about nothing.
- `Chunk.dfy`, `Chunking.dfy`, `Encoder.dfy`, `Stream.dfy`: the sending side, up to the exact sequence of packets of a whole transfer.
- `Decoder.dfy`, `Receiver.dfy`: the decoder object and the three receiving loops, each proved against a function on decoder states.
- `Session.dfy`: a small machine that only knows chunk numbers and symbol ids; the byte-level decoder refines it for packets in any order and number.
- `Delivery.dfy`: what the receiver hands to its writer and how it stops, for every delivery without reordering.
- `Channel.dfy`: the channel as a transition system with one program counter per thread and one for the poison, and its refinement of a bounded queue.
- `Queues.dfy`, `Runs.dfy`: what travels on a queue, and runs of several threads over any step function.
- `SendPipeline.dfy`, `ReceivePipeline.dfy`: the two three-thread pipelines over such queues; the receiver's with its error path, poison and exit.
- `EarlyExit.dfy`: exactly when a decoding error can cost output that was already decoded.
- `Composed.dfy`, `Threads.dfy`: three threads over two channels with all their locking, sleeping and signalling, the poison of the first included, and both sides of hairgap as instances.
- `Transfer.dfy`: both sides together, from the sender's input file to the bytes the receiver writes.
- `Limiter.dfy`: the rate limiter over a clock in microseconds.

Packets carry labels in the proofs (BEGIN, chunk `c` symbol `id`, END, KEEPALIVE);
`Raw` gives the bytes of a label, and the decoder only ever sees bytes. Symbol ids
are reduced modulo 2^32 on both sides, as the header field and the wirehair calls
do, so no result bounds the number of packets per chunk.

Where the code does not do what one would expect, the model follows the code and
states exactly when the expectation holds:

- A clean end does not mean a complete output (`SilentLoss`); the output is the input if and only if every nonempty chunk got a decodable set of packets (`OutputIsInput`).
- A missing wirehair state makes a data packet read as end of transfer (`RefusalReadsAsEnd`, with an instance in `RefusalInstance`); accepted configurations never get there (`SidesAgree`, `DecloopRefines`).
- After a decoding error the output may be cut short: the poison can make the net reader exit the process before the writer is done. For any packets some run ends short if and only if decoding them ends in an error and a block was handed on before (`CutShortExactly`; over a stream: a chunk is complete before the first broken one and a later one arrives, `StreamCutShort`). At the poison it depends on where the net reader is (`PoisonCutsShort`). `ShortTransfer` is a delivery of a four-byte transfer in which a decoded chunk is never written.
- The poison does not wake a waiter that has done its re-test and is about to wait: it misses exactly those (`PoisonMisses`), and there are such runs; the one that concerns hairgap is a net reader at a full ring (`MissedProducer`).
- A window in which the clock did not move counts as rate 0 and passes the limiter (`StalledClock`); a checked window keeps to the rate if and only if the clock moved or nothing was sent (`CheckedWindow`). The excess has no bound.
- An input of a whole number of chunks gets a trailing empty chunk, which is sent as one packet and which the decoder never completes.

## Model

| member | source | states |
|---|---|---|
| Wire.WriteHeader | src/lib/proto.c:82-91 | byte by byte: the first 24 bytes of the buffer become the four fields in order, each most significant byte first; the rest of the buffer is untouched |
| Wire.ParseRoundTrip | src/lib/proto.c:32-52 | parsing any written header followed by any payload returns that header and payload, and says whether the announced payload is there |
| Wire.HeaderInjective | src/lib/proto.c:82-91 | two packets with the same bytes have the same header and payload |
| Wire.Classification | src/lib/proto.c:55-79 | in the numbers of the format, which packets are DATA, BEGIN, END and KEEPALIVE, and that anything shorter than a header is unknown; no DATA packet has the number a fresh decoder starts with |
| Wire.ControlBytes | src/lib/proto.c:93-112 | the 24 bytes of BEGIN, END and KEEPALIVE |
| Config.CheckSender | src/lib/config.c:121-155 | each result code, success included, if and only if its own condition holds and no earlier check failed, with the limits as numbers |
| Chunking.InFile.Fread | src/lib/hgap_send.c:43-44 | a read returns the next bytes of the file, any positive number of them up to the request, none only at the end; only a request past the end can raise end-of-file |
| Chunking.ReadChunk | src/lib/hgap_send.c:37-48 | for every pattern of short reads the buffer receives exactly the next bytes up to its size, and end-of-file is raised exactly when fewer were left |
| Chunking.ReadLoop | src/lib/hgap_send.c:70-93 | the chunks put on the channel are the chunks of the input, in order |
| Chunking.ChunksPartition | src/lib/hgap_send.c:70-93 | chunks concatenate to the input, all but the last are full, the last is strictly shorter and empty exactly for a whole number of chunks |
| Encoder.HgapEncoder.constructor | src/lib/encoding.c:244-252 | numbering starts at 0 |
| Encoder.InitChunk | src/lib/encoding.c:104-128 | takes the next number, prepares the chunk for emission, and fails exactly when wirehair refuses a chunk that needs it |
| Encoder.Emit | src/lib/encoding.c:130-183 | the buffer starts with the packet of the next id, the redundancy returned is bytes generated over chunk length, and the small-packet check cannot fail |
| Encoder.LoopTest | src/lib/hgap_send.c:235-245 | the floating comparison that repeats the loop, 0/0 included, is the inequality total < redundancy * length for a nonempty chunk |
| Encoder.PacketCountLeast | src/lib/hgap_send.c:235-245 | the number of packets is the least, at least one, that reaches the redundancy, and at least the number of source blocks |
| Encoder.SendChunk | src/lib/hgap_send.c:234-245 | for a fresh chunk the loop terminates having sent exactly that many packets with ids 0, 1, 2, ... |
| Encoder.SidesAgree | src/lib/encoding.c:63-73 | for every accepted configuration and chunk, both sides classify it alike and use the same block size, nothing is truncated in the header, a coded chunk has 2 to 64000 blocks, and it is never too big |
| Stream.SendControl | src/lib/sender.c:137-152 | the control packet 32 times |
| Stream.SendOne | src/lib/hgap_send.c:133-154 | one chunk is numbered, encoded without error and emitted as its labelled packets, which carry at least redund times its bytes, and one packet less would not |
| Stream.SendChunks | src/lib/hgap_send.c:220-249 | the data packets of all chunks, in order |
| Stream.SendTransfer | src/lib/hgap_send.c:205-260 | a transfer is 32 BEGIN, all data packets in order, 32 END |
| Stream.TransferShape | src/lib/hgap_send.c:205-260 | a transfer is 32 BEGIN, then data packets only, then 32 END |
| Stream.TransferRedundancy | src/lib/hgap_send.c:235-245 | of every chunk a transfer carries the symbols 0, 1, 2, ..., as many as the configured redundancy asks for and not one more |
| Stream.DataOnWire | src/lib/encoding.c:130-183 | the bytes of every data packet: the header's fields in network order, then the chunk itself if it fits in one packet, else the symbol of that id |
| Stream.ChunksOfInput | src/lib/hgap_send.c:282-284 | every chunk of an input but the last has exactly n_pkt * (pkt_size - 24) bytes, that is n_pkt source blocks; how many chunks there are, and the last one's length |
| Stream.StreamOfValid | src/lib/hgap_send.c:282-284 | every input of an accepted configuration makes a stream that meets the hypotheses of the results below |
| Decoder.Decoder.constructor | src/lib/encoding.c:301-313 | a new decoder is in the fresh state |
| Decoder.Decoder.UpdateState | src/lib/encoding.c:322-357 | the in-place state change agrees with the phase function |
| Decoder.Decoder.InitChunk | src/lib/encoding.c:188-207 | the in-place chunk reset agrees with its function |
| Decoder.Decoder.ReadChunk | src/lib/encoding.c:209-237 | the in-place chunk read agrees with its function |
| Decoder.Decoder.Read | src/lib/encoding.c:359-424 | the in-place read agrees with the step function, of which the results below are proved |
| Decoder.Decoder.Emit | src/lib/encoding.c:426-451 | the in-place emit agrees with its function, fills the buffer with the block and leaves it alone on failure |
| Decoder.ReachableCoherent | src/lib/encoding.c:388-448 | in every reachable state emitted implies complete, a complete chunk can be handed out, and no chunk means the fresh chunk |
| Decoder.ReadEmitContract | src/lib/encoding.c:408-451 | in every reachable state a read of n > 0 makes an emit of n bytes succeed with exactly n; the emit's data check trips if and only if no chunk was ever started |
| Decoder.EmitFailures | src/lib/encoding.c:432-446 | in every reachable state an emit fails exactly for an incomplete chunk or a buffer that is too small, and leaves the state alone; rebuilding a complete chunk never fails |
| Decoder.PhaseStep | src/lib/encoding.c:323-374 | no step lowers the phase; a stopped decoder is frozen and answers EOT |
| Decoder.PhaseNeverDecreases | src/lib/encoding.c:323-357 | over every sequence of reads and emits the phase never decreases |
| Decoder.NothingBeforeBegin | src/lib/encoding.c:326-370 | packets of any content without a BEGIN produce no block, no error and no end |
| Decoder.PhaseExact | src/lib/encoding.c:322-374 | which phase follows, for every phase and packet, and that nothing but a data packet after BEGIN changes anything else |
| Decoder.ReadErrors | src/lib/encoding.c:388-404 | INCOMPLETE_CHUNK and BAD_CHUNK are returned exactly for a packet of another chunk while this one is incomplete, and for more than 96000000 bytes; they leave the chunk alone |
| Decoder.FirstPacket | src/lib/encoding.c:401-424 | the first packet of a chunk completes it exactly if it fits or its one symbol suffices, and an emit then hands out the payload or what the code recovers from it |
| Decoder.FurtherPacket | src/lib/encoding.c:209-237 | a further packet of a coded chunk adds its symbol and completes it if and only if the symbols now suffice |
| Decoder.CompletePacket | src/lib/encoding.c:408-415 | a further packet of a complete chunk changes nothing and announces it again until it is emitted |
| Decoder.ForwardedExact | src/lib/hgap_receive.c:102-137 | what the net reader forwards is the packets up to and including the first END, or all of them |
| Decoder.SessionEmittedOnce | src/lib/encoding.c:359-415 | after a chunk is emitted, nothing short of an END or a packet of another chunk makes decloop emit or stop: repeats, keepalives and BEGINs in any order |
| Decoder.RefusalReadsAsEnd | src/lib/encoding.c:225-228 | a data packet that starts a coded chunk ends the transfer as EOT if and only if wirehair refused the chunk |
| Decoder.RefusalInstance | src/lib/encoding.c:200-228 | under a sound code, BEGIN and one packet announcing 64001 one-byte blocks end as EOT, no END having been sent |
| Session.TurnRefines | src/lib/hgap_receive.c:177-229 | on any packet of a stream, one turn of decloop on bytes does what the session machine does |
| Session.DecloopRefines | src/lib/hgap_receive.c:177-229 | on any packets of a stream in any order and number, decloop emits the session machine's chunks and stops as it does |
| Session.AnyOrderIntegrity | src/lib/encoding.c:388-451 | under arbitrary reordering every block written is the chunk sent under its number, never the same one twice in a row, and INCOMPLETE_CHUNK is the only error |
| Session.ReadThenEmit | src/lib/encoding.h:180-192 | the read/emit contract for every client on packets of a stream |
| Receiver.NetReader | src/lib/hgap_receive.c:102-137 | forwards every packet up to and including the first END |
| Receiver.RunTurn | src/lib/hgap_receive.c:189-228 | one turn of the loop on the decoder object is one turn of the function, and never crashes |
| Receiver.RunDecloop | src/lib/hgap_receive.c:177-243 | the loop on the decoder object yields the outcome of the function that the end-to-end results are about |
| Receiver.Writer | src/lib/hgap_receive.c:269-306 | the output is the concatenation of the blocks in order |
| Receiver.StreamIsOrderly | src/lib/hgap_receive.c:177-229 | packets of a stream, in any order, meet the loop's buffer conditions |
| Delivery.InOrderStaged | src/lib/hgap_send.c:205-260 | any in-order lossy delivery of the sender's packets, with repeats and keepalives, arrives stage by stage |
| Delivery.DoneIs | src/lib/encoding.c:209-237 | a chunk is done, broken or unseen exactly as its length and the set of its delivered symbols say |
| Delivery.ExactOutcome | src/lib/hgap_receive.c:177-229 | for every in-order delivery with a BEGIN: exactly which chunks are handed to the writer, in which order, and how the decoder stops |
| Delivery.NoBeginNoOutput | src/lib/encoding.c:341-370 | without a BEGIN nothing is written and nothing reported, END or not |
| Delivery.InOrderIntegrity | src/lib/encoding.c:388-451 | under any loss the blocks handed to the writer are sent nonempty chunks, byte for byte, with strictly increasing numbers |
| Delivery.ExactLossDetection | src/lib/encoding.c:388-407 | INCOMPLETE_CHUNK is reported if and only if some chunk had packets delivered but not enough and a packet of a later chunk was delivered |
| Delivery.OutputIsInput | src/lib/hgap_receive.c:177-229 | all chunks are written exactly if and only if every nonempty chunk got a decodable set of packets |
| Delivery.EndToEnd | src/lib/hgap_receive.c:177-229 | for every input, accepted configuration and in-order lossy delivery with a BEGIN, the output is the input if and only if every nonempty chunk is decodable; then END gives EOT |
| Delivery.LosslessDelivery | src/lib/hgap_send.c:220-260 | a delivery that loses nothing transfers every input exactly and ends with EOT |
| Delivery.LosslessSystematic | src/lib/hgap_send.c:220-260 | the same for the systematic code, stop at END included, with no assumption left about the code |
| Delivery.SilentLoss | src/lib/encoding.c:341-374 | if only BEGIN and END arrive the receiver ends with EOT having written nothing |
| Channel.RingBuffer.constructor | src/lib/channel.c:98-120 | one slot more than the capacity, both indices 0, not poisoned |
| Channel.RingBuffer.Fill | src/lib/channel.c:170-179 | writing a slot changes that slot only |
| Channel.RingBuffer.Advance | src/lib/channel.c:158-160 | the locked index update of a send and its emptiness test, as the transition system performs them |
| Channel.RingBuffer.Recycle | src/lib/channel.c:205-207 | the locked index update of an acknowledgement and its fullness test |
| Channel.RingBuffer.Poison | src/lib/channel.c:229-232 | sets the flag and nothing else |
| Channel.TestsCount | src/lib/channel.c:65-76 | the index tests say exactly whether the ring is empty or full |
| Channel.NextKeeps | src/lib/channel.c:78-235 | every step of either thread, every spurious wake-up, the poison and each of its signals keep the invariant |
| Channel.FifoAlways | src/lib/channel.c:27-40 | in every interleaving the acknowledged elements are a prefix of the sent ones, at most the requested capacity is queued, and the slots from the read index hold the difference in order |
| Channel.RefinesQueue | src/lib/channel.c:133-216 | each step leaves the bounded queue alone, appends one element when there is room, or removes the first, and is about to signal exactly if the queue was empty, respectively full |
| Channel.SlotExclusion | src/lib/channel.c:133-193 | in every interleaving, poison included, a reserved slot is free, a peeked one is committed and still holds what was read, and they never coincide |
| Channel.NoLostWakeup | src/lib/channel.c:78-96 | without poison an unsignalled sleeper has an empty (full) ring, except between the other side's update and signal; never both asleep; some thread can always move |
| Channel.BoundedWait | src/lib/channel.c:78-216 | without spurious wake-ups the length of any run is bounded by the elements sent and acknowledged in it |
| Channel.PoisonMisses | src/lib/channel.c:229-235 | after the poison's signal to one side, that side sleeps in every continuation if and only if it was between its re-test and its wait at the signal; then for good |
| Channel.ReserveAtOnce | src/lib/channel.c:78-146 | with room, a reserve hands out the next slot in three steps of its own and without the mutex |
| Channel.PeekAtOnce | src/lib/channel.c:181-193 | with an element queued, a peek hands out the first one likewise |
| Channel.PoisonStops | src/lib/channel.c:133-216 | from any poisoned state, on every continuation: no slot is handed out, at most one element more is sent, by a send that was past its check, and none by any other; the same for peeks and acknowledgements |
| Channel.PoisonNeverHandsOut | src/lib/channel.c:133-193 | a slot or element in hand at the end of a continuation has been in hand all along |
| Channel.PoisonedCallFails | src/lib/channel.c:133-143 | a call begun after the poison returns NULL at its first step, in every interleaving |
| Channel.MissedWaiter | src/lib/channel.c:86-94 | a new channel of any capacity has a run in which the consumer is missed |
| Channel.MissedProducer | src/lib/channel.c:133-146 | a new channel of any capacity has a run in which the producer fills the ring and is missed |
| SendPipeline.NextKeeps | src/lib/hgap_send.c:51-249 | every step of every thread keeps the pipeline invariant |
| SendPipeline.WaitsExactly | src/lib/hgap_send.c:70-249 | each thread is blocked exactly if it is done, wants room on a queue at full capacity, or an element from an empty one |
| SendPipeline.NeverStuck | src/lib/hgap_send.c:70-174 | while some thread is unfinished, some thread can move |
| SendPipeline.SenderProgress | src/lib/hgap_send.c:70-249 | every interleaving is bounded, ends only with all threads finished, and then every chunk was sent once, in order, numbered 0, 1, 2, ..., the pill last |
| SendPipeline.SenderFinishes | src/lib/hgap_send.c:70-249 | every interleaving can be continued to one in which all three threads finish |
| SendPipeline.SenderConservation | src/lib/hgap_send.c:70-249 | in every interleaving the chunks sent, in hand and queued, and the unread input concatenate to the input |
| ReceivePipeline.NextKeeps | src/lib/hgap_receive.c:102-306 | every step of every thread keeps the pipeline invariant, poison and exit included |
| ReceivePipeline.WaitsExactly | src/lib/hgap_receive.c:102-306 | the same for the receiver's threads, the poison included |
| ReceivePipeline.NeverStuck | src/lib/hgap_receive.c:102-153 | while some thread is unfinished, some thread can move, the net reader's pill after an early end included |
| ReceivePipeline.ReceiverSafety | src/lib/hgap_receive.c:102-306 | over any packets and in every interleaving, errors included: bounded, a prefix of the sequential output is written, all of it once the writer has finished, and short of an exit the writer does finish after the decoder has left |
| ReceivePipeline.ReceiverProgress | src/lib/hgap_receive.c:102-306 | over failure-free packets no interleaving poisons or exits, and a run ends only with all threads finished |
| ReceivePipeline.ReceiverFinishes | src/lib/hgap_receive.c:102-306 | over failure-free packets every interleaving can be continued to one in which all threads finish |
| ReceivePipeline.ThreadedOutcome | src/lib/hgap_receive.c:164-306 | over every in-order delivery with a BEGIN, decoding errors included: the blocks written are a prefix of the chunks completed up to the first broken one, and all of them once the writer has finished |
| ReceivePipeline.ThreadedIntegrity | src/lib/hgap_receive.c:164-306 | under any loss and in every interleaving the blocks written are sent nonempty chunks with strictly increasing numbers |
| EarlyExit.PoisonCutsShort | src/lib/hgap_receive.c:102-137 | from any reachable poisoned state some run ends without everything written if and only if something is still to be written and the net reader waits for a slot or is past the poison check of a packet other than END |
| EarlyExit.CutShortExactly | src/lib/hgap_receive.c:200-228 | for any packets, any code and any capacities: some interleaving ends without having written everything if and only if decoding ends in an error or a crash after at least one block |
| EarlyExit.StreamCutShort | src/lib/hgap_receive.c:200-228 | over an in-order delivery with a BEGIN the output can be cut short if and only if a chunk before the first broken one is complete and a packet of a later one arrives |
| EarlyExit.ShortTransfer | src/lib/hgap_receive.c:102-104 | a concrete transfer in which the first chunk is decoded but some run ends without it |
| ReceivePipeline.ThreadedEndToEnd | src/lib/hgap_receive.c:320-389 | for every input, accepted configuration, sufficient in-order delivery and interleaving of the threads: no deadlock, a continuation in which all finish, and at the end exactly the input is written |
| Composed.StepKeeps | src/lib/channel.c:78-235 | every step of three threads over two channels, spurious wake-ups, the poison of the first channel and an exit included, keeps the joint invariant |
| Composed.NeverStuck | src/lib/channel.c:78-235 | in every reachable state of the three threads, at the level of mutexes and sleepers, none can move if and only if all have finished, the process has exited, or the other two have finished and the poisoned first thread has given up or was missed |
| Composed.JointProgress | src/lib/channel.c:133-235 | in every interleaving the last thread has received a prefix of what is to be sent on, the run is bounded but for spurious wake-ups, and at the end, short of an exit, everything has been received; without a failure all three finish |
| Composed.CanFinish | src/lib/channel.c:133-235 | from every reachable state the run can be brought to an end |
| Composed.FallenJointStep | src/lib/hgap_receive.c:102-104 | under the poison the process exits exactly when the first thread is refused a slot that it asks for an element |
| Composed.PoisonedJoint | src/lib/hgap_receive.c:102-153 | from any poisoned state of the three threads some run exits if and only if the first thread is to ask for another slot for an element; at most one element more is sent on the poisoned channel |
| Threads.SenderOverChannels | src/lib/hgap_send.c:70-249 | the reader, encoder and sender threads over their channels' own steps: no deadlock, bounded, every chunk received once, in order, numbered, the pill last |
| Threads.AcksAfterSending | src/lib/hgap_send.c:153-162 | the encoding thread acknowledges a chunk only after it has sent it on |
| Threads.ReceiverOverChannels | src/lib/hgap_receive.c:102-306 | the net reader, decoder and writer over their channels' own steps, for any packets of a stream in any order, errors and poison included: bounded, the writer receives a prefix of the sequential output and at the end, short of an exit, all of it; without an error all three finish |
| Threads.InputOverChannels | src/lib/hgap_receive.c:102-306 | for every sufficient delivery the three threads never deadlock over their channels' own steps, can finish, and then the writer has received exactly the input |
| Transfer.ThreadedSender | src/lib/hgap_send.c:269-336 | whatever the interleaving of the sender's threads, the packets on the wire are exactly those of the input's stream |
| Transfer.SenderCompletes | src/lib/hgap_send.c:269-336 | every interleaving of the sender's threads can be continued until all finish, and however they finish the wire has carried the input's stream |
| Transfer.WholeTransfer | src/lib/hgap_receive.c:320-389 | for every interleaving of all six threads and every sufficient in-order lossy arrival of the bytes: the receiver can always go on until its threads finish, ends in no other way, and has then written exactly the sender's input |
| Transfer.TransferOverChannels | src/lib/hgap_receive.c:320-389 | the same for all six threads down to their locks, sleeps, signals and spurious wake-ups |
| Limiter.HgapLimiter.GetCurrentRate | src/lib/limiter.c:56-69 | the rate of the current window at the time read |
| Limiter.RateIs | src/lib/limiter.c:56-69 | that rate times the microseconds passed is the window's bytes times 1000000; an unmoved clock reads as 0 |
| Limiter.CheckPasses | src/lib/limiter.c:87-91 | a check passes if and only if the clock stands still or the bytes times 1000000 are within byterate times the microseconds passed |
| Limiter.HgapLimiter.Limit | src/lib/limiter.c:81-95 | unless a rate is set and the window already has 1000 packets, the call only counts and does not touch the clock; else it terminates, sleeps only 100 microseconds at a time and only while the window exceeds the rate, and begins a new window |
| Limiter.CheckedWindow | src/lib/limiter.c:87-91 | a window that passes its check is within its allowance if and only if the clock moved in it or it is empty |
| Limiter.AllowedIs | src/lib/limiter.c:81-95 | what the rate allows is byterate times the microseconds passed, in millionths of a byte |
| Limiter.RateBound | src/lib/limiter.c:81-95 | with a clock that moves in every window that carries bytes, at every return the total is at most what the byte rate allows since creation plus 1000 maximal packets |
| Limiter.SendPaced | src/lib/sender.c:124-135 | the limiter object called for one packet after another makes a legal run, ends within that bound, has counted every byte, and is the number of packets modulo 1001 into a window |
| Limiter.RateBoundAtCheck | src/lib/limiter.c:87-91 | at every check all bytes sent so far fit the byte rate since creation |
| Limiter.StalledClock | src/lib/limiter.c:61-63 | within one microsecond any number of windows of 1001 packets pass unthrottled at any byte rate, and the total exceeds the bound |

## Left out

- wirehair itself: an abstract code with the laws of `Sound`; nothing is claimed about how many packets it needs beyond the source-block law used only for lossless delivery.
- Encoder.Emit: symbol generation always succeeds; a failing wirehair_write, which makes the emission loop continue, is not modelled.
- Encoder.SendChunk: every symbol write succeeds (a failing one makes the loop go on without a packet); and the chunk must be fresh, because the generated-byte count is not reset by initialisation; the encoding thread provides a fresh one.
- Stream.SendControl: every send succeeds; a failing one ends the salve early. For END packets and data packets the link's losses cover that; a failing BEGIN salve ends hgap_send and is not modelled.
- Decoder.ReadEmitContract: packets announce the payload they carry, and a later packet of a chunk no less than the first; a shorter one makes the C code read past its data.
- Decoder.Decoder.Emit: stated for the states that decoding well-formed packets reaches.
- ReceivePipeline.ReceiverProgress: for packets that decode without error. After an error the decoder and the writer finish (ReceiverSafety) unless the process exits, which EarlyExit characterises; over queues the poison reaches every waiter, and the one it misses is in Channel and Composed.
- Composed.JointProgress: what a thread does between two calls on its channels takes no step of its own, and a net reader whose send fails stops without its failing attempt to send the pill.
- Channel.NoLostWakeup: for capacity at least 1 and no poison.
- Channel blocking calls: the wait loop is a set of transitions, not a method, since it only makes sense next to another thread; shared memory is sequentially consistent.
- Limiter.RateBound: one caller; the keepalive thread calls the same limiter without a lock, and what two racing callers count is not modelled. Reals instead of doubles, a clock that never goes back, a sleep that lasts at least its argument.
- Redundancy: a real at least 1; a NaN, which the C check accepts, and -Ofast are not modelled.
- Chunk numbers: inputs below 2^64 - 16 bytes, so that no number reaches the reserved range.
- Sockets, timeouts, the keepalive thread, files, memory management, option parsing and messages: the network is a sequence of packets, keepalives may appear anywhere, the output is a sequence of bytes.
- The return codes that hgap_send and hgap_receive combine from their threads.
- Failing stages: a read error, an allocation failure or a failing write is not modelled.
