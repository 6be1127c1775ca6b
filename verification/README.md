# SocketCast engine: a verified model of the reliable-UDP core

This project models the C++ engine of SocketCast in Dafny and proves what its design promises:
a selective-repeat protocol with a three-way handshake, an 8-packet window, negative
acknowledgements, timeouts, a reorder buffer, a FIN exchange and deadline drops; the packet codec
with its CRC-32; the H.264 byte-stream scanner, chunker and frame capture; the ADTS splitter; the
token bucket, the RTT estimator and the jitter buffer; and the base-64 encoder of the dashboard feed.

## How it is laid out

- `Wire`, `Clock`: machine integers, headers, packets, instants in nanoseconds.
- `Crc32`, `PacketCodec`: checksum and codec, as array methods proved against a bit-serial register
  and against an encode/decode pair.
- `AnnexB`, `FrameCapture`, `Adts`, `MediaSource` (module `Source`): scanning, cutting, queueing and
  capturing media; the queue is a class.
- `Rto`, `RateControl`, `JitterBuffer` (module `Jitter`): the controllers, each a class proved against
  functions on its state. Doubles are modelled as reals.
- `SessionSpec`: what a session does, as functions from an endpoint's state to its next state and
  the packets it sends. `Session` (module `SessionObject`) is the session as an object whose loops
  update fields in place; each of its methods is proved to do exactly what `SessionSpec` says. Its
  fields are held in three objects, for sending, for receiving and for the connection.
- `Link`: two session objects and the datagrams between them; every step the objects take is the
  step of the network model, so what is proved of its runs holds of the objects.
- `Network`: one initiator and one listener over a network of datagrams. A run is any sequence of
  starts, closes, timer ticks with a non-decreasing clock, deliveries, drops, duplications and damage
  within the reach of the checksum. Datagrams may be delivered in any order.
- `Filling`, `Feedback`, `TimeoutScan`, `GapRepair`, `Greetings`: what each packet and each tick does to a
  session, said in its fields and without its loops and helper functions, and what follows for runs.
- `Sender`, `Receiver`, `Reliability`, `Window`, `Reorder`: the joint invariant and its consequences.
- `Termination`, `Completion`, `Recovery`, `LossyStart`, `Farewell`, `LostFin`, `DeadPeer`: no packet
  storm, completion of every loss-free dummy exchange, recovery from loss, also of the handshake, the
  FIN exchange with and without loss, and giving up on a silent peer.
- `MediaTransfer`, `Pacing`, `Starvation`, `Holes`, `Deliverable`: a file from end to end, the pacing of
  first transmissions, what starvation and deadline drops cost, and when everything sent can still be
  delivered.
- `StreamCompletion`, `Schedule`: a stream that loses nothing, under every order of deliveries and ticks,
  and a timetable under which every file arrives.
- `Opening`, `Lockstep`, `EndOfNumbers`: the run that opens an exchange, exchanges of one packet and its
  answer at a time, and how far the 32-bit numbers let a transfer get.
- `StraySyn`, `Counterexamples`: runs and inputs for what the code does not promise.
- `Base64`: the encoder with its overflowing accumulator, against RFC 4648, section 4.

## What the code forces

- **One epoch.** A SYN makes the listener start again at number 0 (engine/src/session.cpp:292-307).
  `Reliability.RestartKeepsIff` shows the invariant survives a SYN if and only if nothing was
  delivered yet, `Reliability.RestartRedelivers` what goes wrong otherwise, and
  `Counterexamples.SynReplayDeliversTwice` a run in which a copied SYN makes the one packet sent arrive
  twice. All theorems about runs are for runs in which no SYN reaches the listener after its first
  delivery.
- **No wrap of sequence numbers.** `next_expected_ + kSendWindow` is a 32-bit sum
  (engine/src/session.cpp:355). `Window.TurnedAwayIff` gives the exact point where the window turns
  genuine data away, `Window.StalledForEver` and `Termination.StormAtTheEnd` what happens there.
  `EndOfNumbers.CompletableIff` says that every loss-free run leaves a dummy transfer completable if and
  only if its count is at most 2^32 - 8, and `EndOfNumbers.EndIsReached` that every longer one can get to
  the point where nothing is accepted any more, by in-order deliveries and losses.
- **Starvation consumes a chunk.** The chunk leaves the source before the tokens are looked at
  (engine/src/session.cpp:178-186). `Pacing.SkipsIffStarved` says that a filling of the window loses a
  chunk if and only if the bucket holds less than the wire size of the chunks that window and timeline
  admit, `Starvation.RunSkips` that in a run as many chunks are lost as fillings began so, and
  `Starvation.FileToFile` that the file arrives if and only if none did. `Pacing.FirstBurstLosesChunk`
  shows it on the first burst, and `Counterexamples.LongFileLosesChunk` for a file.
- **Deadline drops leave holes.** A packet of which the network has lost every copy and which the sender
  has dropped, or is bound to, ends the delivery for good (`Holes.HoleForEver`). Bound to be dropped are
  the packets of time 0, as control units are (engine/src/media_source.cpp:113-117), and those less than
  the least timeout and the margin before their playback time (`Holes.LateIsNeverResent`,
  `Holes.LateIsHole`). Once nothing but such packets and packets still present is in flight,
  `Deliverable.DeliverableIff` says that everything sent can still be delivered if and only if no packet
  is lost so, and `Deliverable.FileIff` that some run makes the sink the file if and only if, besides, no
  filling starved. `Counterexamples.AnyFileCanBeLost` loses the first packet of any file.
- **FIN is said once.** An initiator that has said FIN closes only on the answer.
  `LostFin.ClosesIff` gives the exact condition under which it still can, `LostFin.DroppedFin` that
  it never does once the network drops its one FIN, and `Counterexamples.FinCanBeLost` the run of any
  transfer in which the network drops just that. A transfer of nothing never says FIN at all
  (`Farewell.LossFreeCloses`): FIN is said on an acknowledgement (engine/src/session.cpp:385-389).
- **A repeated SYN makes the listener forget.** Before the first delivery a SYN empties the reorder buffer
  (engine/src/session.cpp:292-307). With no SYN under way past the handshake, or in silence, one timeout
  and any order of deliveries complete a lossy transfer (`LossyStart.AnyOrderRecovers`);
  `StraySyn.StraySynSpoils` is a run in which nothing is lost, a timeout comes early, and the second SYN
  leaves a packet undelivered when the deliveries have run dry.
- **A torn last unit.** A file that ends in 00 00 01 exactly at the start of a chunk is captured with
  one frame too many; `FrameCapture.FramesIff` gives the exact condition and
  `Counterexamples.TornFileFrames` such a file.
- **Documentation and code.** Doc/protocol.md describes an adaptive jitter depth and a deadline with
  a latency budget of 200 ms, and evicts from the jitter buffer above 95 percent; the code has a
  fixed depth of 50 ms, no budget, and evicts when 256 packets are held. The model follows the code.

## Model

| member | source | states |
|---|---|---|
| Crc32.BuildTable | engine/src/packet.cpp:11-21 | the table built in place holds at index k the register k after eight clocks |
| Crc32.TableEntry | engine/src/packet.cpp:14-18 | the inner loop clocks the reflected register once for every bit |
| Crc32.TableStep | engine/src/packet.cpp:80 | for every register and byte, a table look-up equals feeding eight bits one at a time |
| Crc32.Compute | engine/src/packet.cpp:77-83 | the table loop equals bit-serial division for every byte string |
| Crc32.BurstChangesChecksum | engine/src/packet.cpp:77-83 | every error confined to four consecutive bytes changes the checksum |
| Crc32.CheckValues | engine/src/packet.cpp:9-83 | the checksum of nothing, of four bytes FF and of these with 80 after them is 0, FFFFFFFF and 12477CDF |
| PacketCodec.Get32Put32 | engine/src/packet.cpp:28-47 | reading back a 32-bit field gives the value, and so do its four bytes weighted from the most significant one down |
| PacketCodec.Put64Get64 | engine/src/packet.cpp:35-51 | every eight bytes are the image of the number they read as, which is that of their bytes from the most significant one down |
| PacketCodec.WriteHeader | engine/src/packet.cpp:61-73 | each header field stands at its offset, most significant byte first, with its type codes, and nothing else changes |
| PacketCodec.Serialize | engine/src/packet.cpp:85-108 | writes the encoding in place, which lies on the wire byte for byte as the header layout says, or nothing when payload or buffer does not fit |
| PacketCodec.ClearedChecksum | engine/src/packet.cpp:147-149 | the checksum of the datagram with its checksum field zeroed, the datagram untouched |
| PacketCodec.Deserialize | engine/src/packet.cpp:110-157 | a packet it returns stands in the bytes field by field, and it returns none only if the bytes hold no packet |
| PacketCodec.CheckHeader | engine/src/packet.cpp:111-145 | the header is accepted field by field just when magic, version, reserved field, types and length are right |
| PacketCodec.DecodeEncode | engine/src/packet.cpp:85-157 | decoding an encoded packet gives it back with magic, version, length, reserved and checksum as the wire fixes them |
| PacketCodec.EncodeDecode | engine/src/packet.cpp:85-157 | any datagram accepted is reproduced byte for byte by encoding what was read |
| PacketCodec.AcceptedIffEncoded | engine/src/packet.cpp:110-157 | a byte string is accepted if and only if it is the encoding of some packet that fits |
| PacketCodec.EncodedOnWire | engine/src/packet.cpp:61-108 | every packet that fits is encoded as the bytes of its fields behind 53 43 53 54, with the checksum over them in bytes 28 to 31 |
| PacketCodec.OnWireIsEncoded | engine/src/packet.cpp:61-108 | and no other bytes hold that packet |
| PacketCodec.DecodedIff | engine/src/packet.cpp:110-157 | a packet is decoded if and only if the bytes hold it and its fixed header fields are those of the wire |
| PacketCodec.BurstRejected | engine/src/packet.cpp:147-151 | an accepted datagram altered within four consecutive bytes outside the checksum is rejected |
| PacketCodec.ChecksumDamageRejected | engine/src/packet.cpp:147-151 | an accepted datagram altered only inside its checksum field is rejected |
| AnnexB.UnitEnd | engine/src/nal_parser.cpp:56-65 | the inner loop stops at the first start code after the header byte or at the end |
| AnnexB.Scan | engine/src/nal_parser.cpp:33-73 | the two loops find the units of the recursive scan, for every byte string |
| AnnexB.ScanTiles | engine/src/nal_parser.cpp:39-72 | from the first start code on, start codes and non-empty units tile the input, with at most one bare 00 00 00 01 left, and no unit hides a start code |
| AnnexB.TilingIsScan | engine/src/nal_parser.cpp:39-72 | only the scan tiles the input so: the units are determined by their properties |
| AnnexB.UnitsOrdered | engine/src/nal_parser.cpp:68-70 | units are ordered, disjoint and inside the data |
| AnnexB.ScanIs | engine/src/nal_parser.cpp:16-73 | byte by byte: the first unit stands behind the first start code, three bytes or four, and every later one behind a start code that follows the unit before; each is labelled by its first byte, nothing is missed, and behind the last is the end or one bare 00 00 00 01 |
| AnnexB.ScanOfNothing | engine/src/nal_parser.cpp:33-73 | nothing is found only where the one start code, if any, is 00 00 00 01 at the end |
| AnnexB.ScanPrintable | engine/src/nal_parser.cpp:56-65 | scanned units never contain a start code, except that the last may end in 00 00 01 |
| AnnexB.RoundTripIff | engine/src/nal_parser.cpp:33-73 | printing units with four-byte start codes and scanning gives them back exactly when they are of that form |
| AnnexB.NormaliseKeepsUnits | engine/src/media_source.cpp:112-123 | normalising start codes keeps every unit of every byte string |
| AnnexB.ChunkPayload | engine/src/nal_parser.cpp:75-85 | the loop cuts the blob every 1200 bytes |
| AnnexB.FlattenChunks | engine/src/nal_parser.cpp:75-85 | the pieces put together are the blob |
| FrameCapture.PieceIs | engine/src/nal_parser.cpp:75-85 | piece k of a blob is its stretch of 1200 bytes from 1200 k on, the last one what is left |
| FrameCapture.QueueAt | engine/src/media_source.cpp:112-128 | each chunk of the queue is the piece of its unit, labelled by the unit's first byte and timed by the number of pictures before it |
| FrameCapture.QueueIsPrint | engine/src/media_source.cpp:112-128 | the payloads of the chunk queue are the normalised byte stream |
| FrameCapture.TakeAllKeepsBytes | engine/src/session.cpp:199-214 | captured frames and pending frame together hold every byte sent, in order |
| FrameCapture.UntappedCaptures | engine/src/session.cpp:202-206 | without a callback no frame is captured |
| FrameCapture.GroupTaken | engine/src/session.cpp:196-214 | chunks from one start code to the next, whichever are missing, hand out the frame before and make one with all their bytes, the type of the first and the time of the last |
| FrameCapture.OneFramePerUnit | engine/src/session.cpp:199-233 | an untorn queue is captured as one frame per unit with the unit's time and keyframe flag |
| FrameCapture.TornCount | engine/src/session.cpp:199-233 | a torn last unit costs exactly one frame more |
| FrameCapture.FramesIff | engine/src/session.cpp:199-233 | the frames are one per unit if and only if the last unit is not torn |
| Source.MediaSource.Open | engine/src/media_source.cpp:42-64 | opens on loaded bytes once, building the video queue and, unless raw, the audio queue |
| Source.MediaSource.BuildChunkQueue | engine/src/media_source.cpp:106-130 | the loops build the queue of the scanned units and end of file is an empty queue |
| Source.MediaSource.EnqueueUnit | engine/src/media_source.cpp:112-127 | a unit is timed by its picture index and appended as chunks |
| Source.MediaSource.AppendPieces | engine/src/media_source.cpp:124-127 | all pieces join the queue in order with the unit's type and time |
| Source.MediaSource.NextChunks | engine/src/media_source.cpp:132-144 | hands out the next chunks in order and notices end of file at once |
| Source.MediaSource.NextAudioChunks | engine/src/media_source.cpp:206-212 | hands out audio chunks in order, none twice |
| Adts.BuildAudioQueue | engine/src/media_source.cpp:163-204 | the resynchronising loop terminates on all bytes with the frames of the recursive split |
| Adts.FramesOrdered | engine/src/media_source.cpp:171-203 | frames are in bounds, ordered and disjoint, and each chunk is the bytes of its frame |
| Adts.NothingMissed | engine/src/media_source.cpp:172-197 | every well-formed frame of the input is taken, unless it begins inside a frame taken: junk is skipped byte by byte |
| Adts.PtsIsSum | engine/src/media_source.cpp:194-201 | a chunk's time is the summed duration of the chunks before it |
| Adts.PtsIncreases | engine/src/media_source.cpp:194-201 | times strictly increase |
| Adts.SplitsBackIff | engine/src/media_source.cpp:171-203 | a concatenation is split back into its pieces if and only if every piece is a well-formed frame |
| Adts.MadeIsWellFormedIff | engine/src/media_source.cpp:180-189 | a built frame is well formed if and only if its length fits 13 bits and its rate index is defined |
| Adts.WellFormedIff | engine/src/media_source.cpp:171-189 | a byte string is one frame if and only if its sync bits, rate index and 13-bit length say so, the length at least 7 or 9 |
| Adts.ChunkReads | engine/src/media_source.cpp:178-199 | each chunk is one frame, with the frequency and the channels its own header bits give |
| Adts.MadeSplits | engine/src/media_source.cpp:180-202 | a built frame is split into one chunk with the frequency of its index and its channels, two when the field is 0 |
| Rto.RtoEstimator.OnRttSample | engine/src/rto.cpp:15-26 | updates mean and deviation in the order of the code, samples raised to 1 |
| Rto.Envelope | engine/src/rto.cpp:15-26 | samples in a band keep the mean in it and the deviation under max(hi / 2, hi - lo) |
| Rto.SteadyForm | engine/src/rto.cpp:15-26 | constant samples r give mean r and deviation r / 2 times (3/4)^(n-1) |
| Rto.SteadyTimeout | engine/src/rto.cpp:28-36 | on a steady path the timeout never grows nor falls under the round trip time |
| RateControl.RateController.OnTick | engine/src/rate_controller.cpp:14-29 | refills by rate times elapsed time, capped at one second's worth |
| RateControl.RateController.OnAck | engine/src/rate_controller.cpp:31-35 | counts, records the sample and adapts |
| RateControl.RateController.OnLoss | engine/src/rate_controller.cpp:37-40 | counts the loss and adapts |
| RateControl.RateController.ConsumeTokens | engine/src/rate_controller.cpp:50-54 | takes no more than the whole tokens there are |
| RateControl.RateController.UpdateRttTrend | engine/src/rate_controller.cpp:56-68 | keeps the last 32 samples |
| RateControl.RateController.AdaptRate | engine/src/rate_controller.cpp:70-113 | the loops and floating-point steps give the rate and reason of the integers: four fifths for loss over five percent, nine tenths when the newest four samples climb, a twentieth up under one percent |
| RateControl.AckRate | engine/src/rate_controller.cpp:31-113 | an acknowledgement adds its round trip time to the last 32 samples and sets the rate and reason of the integers |
| RateControl.LossRate | engine/src/rate_controller.cpp:37-113 | so does a loss, without a sample |
| RateControl.ClimbingPlain | engine/src/rate_controller.cpp:78-97 | under 2^61 microseconds samples climb if and only if the newest four average more than 10 ms above the oldest four |
| RateControl.TickTokens | engine/src/rate_controller.cpp:14-29 | a tick adds an eighth of the rate for each second, up to that of one second |
| RateControl.ApplyConforms | engine/src/rate_controller.cpp:14-54 | every operation keeps the rate in [100 kbps, 100 Mbps], the tokens in [0, 12.5 MB] and consumption under burst plus credit |
| RateControl.Conformance | engine/src/rate_controller.cpp:8-54 | over any interleaving, bytes consumed stay under the burst plus what the ticks were worth |
| RateControl.LossDirection | engine/src/rate_controller.cpp:70-113 | a loss lowers the rate if and only if more than one in twenty acknowledged packets is lost or the samples climb |
| RateControl.EarlyLossRaises | engine/src/rate_controller.cpp:71-74 | before the first acknowledgement a loss raises the rate |
| RateControl.CalmRun | engine/src/rate_controller.cpp:70-113 | without loss and within a 10 ms band the rate never falls and rises with every acknowledgement up to the cap |
| RateControl.ThirtyOneToFloor | engine/src/rate_controller.cpp:101-104 | thirty-one lossy steps take any rate to the floor, and from the top thirty do not |
| Jitter.FindVictim | engine/src/jitter_buffer.cpp:24-29 | finds the first least packet by priority and arrival time |
| Jitter.JitterBuffer.Push | engine/src/jitter_buffer.cpp:12-39 | takes the packet in if there is room or something of lower priority to evict |
| Jitter.JitterBuffer.Pop | engine/src/jitter_buffer.cpp:41-61 | gives the front packet when it is due or alone |
| Jitter.JitterBuffer.UpdateJitterEstimate | engine/src/jitter_buffer.cpp:96-107 | keeps the last 32 inter-arrival times |
| Jitter.InsertIs | engine/src/jitter_buffer.cpp:22-38 | with 256 packets held a push takes the place of the oldest packet of the lowest priority, or is refused |
| Jitter.PopIs | engine/src/jitter_buffer.cpp:41-61 | a pop takes the front packet if and only if it was held for the target depth or is alone |
| Jitter.WindowIsGaps | engine/src/jitter_buffer.cpp:96-107 | after any pushes the window holds the last 32 times between arrivals |
| Jitter.InsertHighs | engine/src/jitter_buffer.cpp:22-38 | a push never evicts a high-priority packet and refuses one only when 256 are held |
| Jitter.PushOnly | engine/src/jitter_buffer.cpp:12-39 | after any pushes the buffer holds exactly the first 256 high-priority packets pushed |
| Jitter.RunOrdered | engine/src/jitter_buffer.cpp:12-61 | what is popped and what is held was accepted in that order, within the size bounds |
| SessionObject.SendHalf.Emit | engine/src/session.cpp:238-246 | numbers, launches and counts one first transmission |
| SessionObject.SendHalf.FillDummies | engine/src/session.cpp:237-249 | the dummy loop fills the window as specified |
| SessionObject.SendHalf.TryChunk | engine/src/session.cpp:178-223 | a chunk is taken and then sent if and only if the tokens suffice |
| SessionObject.SendHalf.FillChunks | engine/src/session.cpp:166-224 | the media loop paces, pays and captures as specified |
| SessionObject.SendHalf.Fill | engine/src/session.cpp:164-249 | refills the bucket, fills the window and flushes the last frame at end of file |
| SessionObject.FrameTap.Take | engine/src/session.cpp:199-214 | flushes at a start code and appends the payload to the pending frame |
| SessionObject.SendHalf.Settle | engine/src/session.cpp:376-384 | an acknowledged slot is timed and removed |
| SessionObject.SendHalf.Nudge | engine/src/session.cpp:396-411 | a negatively acknowledged slot is retransmitted or dropped at its deadline |
| SessionObject.SendHalf.Scan | engine/src/session.cpp:447-469 | the timeout loop over the slots in ascending order, giving up after twenty retries |
| SessionObject.ReceiveHalf.AcceptNext | engine/src/session.cpp:260-279 | writes, buffers, counts and acknowledges the expected packet |
| SessionObject.ReceiveHalf.DeliverInOrder | engine/src/session.cpp:252-283 | the delivery loop, then what is due leaves the jitter buffer |
| SessionObject.ReceiveHalf.DeliverFromJitter | engine/src/session.cpp:142-156 | pops until nothing is due, only with a sink |
| SessionObject.ReceiveHalf.Receive | engine/src/session.cpp:350-368 | old, out-of-window, expected and early data, each with its answer |
| SessionObject.Session.constructor | engine/src/session.cpp:27-31 | a fresh endpoint, a listener with stream 1 |
| SessionObject.Session.SetDummySend | engine/src/session.cpp:33-40 | count and payload size clamped to 4..1200 |
| SessionObject.Session.SetMediaSend | engine/src/session.cpp:42-46 | media mode with the source and nothing left to send as dummies |
| SessionObject.Session.IsComplete | engine/src/session.cpp:52-61 | agrees with the specification: not failed, past the handshake, drained |
| SessionObject.Session.Start | engine/src/session.cpp:63-69 | an initiator sends a SYN and notes the time |
| SessionObject.Session.BeginClose | engine/src/session.cpp:71-77 | closes once, without a packet |
| SessionObject.Session.FillWindow | engine/src/session.cpp:158-250 | only an active initiator sends |
| SessionObject.Session.Restart | engine/src/session.cpp:292-306 | a SYN resets the listener to number 0 and keeps its statistics |
| SessionObject.Session.OnHandshake | engine/src/session.cpp:290-341 | SYN, SYN-ACK, ACK and FIN as specified, FIN-ACK never answered |
| SessionObject.Session.OnData | engine/src/session.cpp:343-369 | data opens a handshaking listener and is ignored by a closed session |
| SessionObject.Session.OnAck | engine/src/session.cpp:375-394 | settles the slot, then says FIN once complete or sends on |
| SessionObject.Session.OnPacket | engine/src/session.cpp:285-414 | the whole reaction to a packet is the specified one, state and replies |
| SessionObject.Session.HandshakeTick | engine/src/session.cpp:425-444 | repeats the greeting after a timeout and fails after twenty |
| SessionObject.Session.OnTick | engine/src/session.cpp:416-477 | the whole reaction to a tick is the specified one |
| Filling.FillWindowAdds | engine/src/session.cpp:158-249 | filling the window adds packets that are in flight since now, and leaves the other slots, the timer and the counters alone |
| Filling.DummyWindow | engine/src/session.cpp:94-249 | as many dummy packets go out as there is room and remain, each its number in four bytes and filler |
| Filling.MediaWindow | engine/src/session.cpp:109-224 | the chunks that go out are the next of the queue, each due by 250 ms ahead of the stream clock and all paid for, and the reason to stop is a full window, the end, a chunk not due, or one taken and not paid for |
| Filling.WindowFilled | engine/src/session.cpp:158-249 | an active initiator is left with a full window or nothing to send, or with a chunk not due or one just lost for lack of tokens; any other sends nothing |
| Feedback.InTimeIff | engine/src/session.cpp:124-140 | with plausible clocks the wrapped 64-bit deadline test is elapsed time, timeout and 50 ms before the playback time |
| Feedback.NackReaction | engine/src/session.cpp:396-410 | a negative acknowledgement in time sends the packet again, at once and alone, its slot sent now and once more; too late the packet is dropped and counted |
| Feedback.AckReaction | engine/src/session.cpp:375-394 | an acknowledgement hands its round trip time to timer and rate, takes its slot out and leaves the others |
| Feedback.AckAnswer | engine/src/session.cpp:385-391 | it is answered by FIN, once, when nothing is left in flight or to send, and otherwise by new packets, as many as can go out |
| Feedback.TimerFollowsPath | engine/src/session.cpp:375-383 | in every run whose acknowledgements come within a band of their sendings the timer is fresh until the first one, and then its mean is in the band and its deviation bounded |
| TimeoutScan.TickReaction | engine/src/session.cpp:446-473 | a tick sends every tardy packet that is in time again, in order and before new ones, gives up every late one, and leaves the other slots, with all counters and the rate; of new packets as many follow as can go out |
| TimeoutScan.TickGivesUp | engine/src/session.cpp:450-456 | a tardy slot sent again twenty times fails the session and nothing is sent |
| GapRepair.GapReported | engine/src/session.cpp:350-368 | every data packet in the window above the expected number is kept once and answered by one request for that number |
| GapRepair.BeyondReported | engine/src/session.cpp:355-359 | one beyond the window is answered so and not kept |
| GapRepair.OldAcknowledged | engine/src/session.cpp:351-354 | one delivered already is acknowledged once more and changes nothing |
| GapRepair.ExpectedDelivered | engine/src/session.cpp:141-283 | the expected packet and all held behind it without a gap are delivered, written, timed and acknowledged in order, and what is ripe is played |
| GapRepair.ListenerTicks | engine/src/session.cpp:446-473 | a tick of an open listener sends nothing and plays what is ripe |
| GapRepair.GapIsRepaired | engine/src/session.cpp:343-410 | three deliveries repair a gap: the packet behind it, the request it causes, and the packet the request brings while that is in flight and in time |
| Greetings.SynAlone | engine/src/session.cpp:292-307 | a SYN resets every field of a listener but statistics, jitter buffer and sink, and is answered by SYN-ACK |
| Greetings.SynAndAck | engine/src/session.cpp:308-317 | a SYN-ACK is acknowledged under its stream number and makes an initiator in the handshake active, the first packets following, as many as can go out |
| Greetings.HandshakeTicks | engine/src/session.cpp:425-444 | the greeting is repeated a timeout after the last one, twenty times, and then the session fails |
| Sender.FillKeeps | engine/src/session.cpp:164-249 | filling the window keeps numbering, slots and the ledger sent = acked + dropped + in flight with at most eight in flight |
| Sender.InitiatorKeeps | engine/src/session.cpp:285-414 | any packet at an initiator keeps them, sends only what was first sent under each number, and lets only the acknowledged number leave the window |
| Sender.OnTickKeeps | engine/src/session.cpp:416-477 | so does every tick |
| Receiver.ReceiveKeeps | engine/src/session.cpp:350-368 | data keeps the receiver's order, and feedback names only numbers delivered or the one expected |
| Reorder.RefinesSet | engine/src/session.cpp:252-283 | after any arrivals the expected number is the least not accepted, the buffer holds exactly the accepted ones above it, at most seven, all within the window |
| Reorder.OrderIsIrrelevant | engine/src/session.cpp:343-369 | two arrival orders with the same accepted numbers leave the same packets delivered and buffered |
| Reliability.StepKeeps | engine/src/session.cpp:285-477 | the joint invariant of sender, receiver and network survives every step |
| Reliability.DeliveredPrefix | engine/src/session.cpp:252-283 | in every run the delivered packets are numbers 0, 1, ... once each, in order, a prefix of what was sent |
| Reliability.CompleteIsDelivered | engine/src/session.cpp:52-61 | when a dummy-mode initiator is complete the listener has delivered all packets with their payloads |
| Reliability.RestartKeepsIff | engine/src/session.cpp:292-307 | a SYN keeps the invariant if and only if nothing was delivered yet |
| Reliability.RestartRedelivers | engine/src/session.cpp:292-307 | otherwise the first packet can be delivered a second time |
| Window.CountWindowIsRangeWindow | engine/src/session.cpp:237 | without deadline drops the sender is at most eight ahead of the listener, however many acknowledgements were lost |
| Window.TurnedAwayIff | engine/src/session.cpp:355-359 | genuine data is out of the window if and only if the window runs off the 32-bit numbers |
| Window.StalledForEver | engine/src/session.cpp:355-359 | from there nothing is ever delivered again |
| Termination.DeliverLFalls | engine/src/session.cpp:343-369 | every delivery to the listener costs more energy than its answers carry |
| Termination.DeliverIFalls | engine/src/session.cpp:371-414 | every delivery to the initiator costs more energy than what it sends |
| Termination.NoStorm | engine/src/session.cpp:285-414 | from every state, in dummy and media mode, the datagrams moved by any run without ticks and duplication are bounded by the energy of its first state |
| Termination.ExchangeBound | engine/src/session.cpp:285-414 | an exchange of n dummy packets or chunks moves at most 5 n + 5 datagrams |
| EndOfNumbers.EndIsReached | engine/src/session.cpp:343-394 | every started transfer of more than 2^32 - 8 packets can get there, by a run of in-order deliveries and losses |
| EndOfNumbers.CompletableIff | engine/src/session.cpp:355-359 | after every run of deliveries of a started transfer some run completes it, if and only if it has at most 2^32 - 8 packets |
| Termination.StormAtTheEnd | engine/src/session.cpp:355-359 | at the end of the 32-bit numbers data and negative acknowledgement chase each other without bound |
| Completion.QuietIsComplete | engine/src/session.cpp:52-61 | when nothing is under way in a loss-free exchange, it is complete and all is delivered |
| Completion.StepGoesOn | engine/src/session.cpp:285-414 | every number in flight stays on its way, on its way back, or in the reorder buffer |
| Completion.LossFreeCompletes | engine/src/session.cpp:285-414 | under every order of delivery a loss-free exchange without ticks ends complete, with every packet delivered |
| Recovery.SweepResends | engine/src/session.cpp:447-469 | the timeout scan sends every overdue packet again, under its own number |
| Recovery.LossySteady | engine/src/session.cpp:285-477 | loss, duplication, damage and timeouts leave an exchange past its handshake steady while neither side gives up |
| Recovery.TickRevives | engine/src/session.cpp:446-473 | after whatever loss, one tick with every slot overdue puts everything in flight on its way again |
| Recovery.RecoversFromLoss | engine/src/session.cpp:285-477 | after any lossy run of an exchange past its handshake, one such tick and deliveries in any order complete the transfer with everything delivered |
| LossyStart.LossyLoose | engine/src/session.cpp:285-477 | loss, duplication, damage and timeouts leave a started exchange, handshake included, in order while neither side gives up |
| LossyStart.TickRelaunches | engine/src/session.cpp:425-473 | with no SYN under way past the handshake, or in silence, one timeout repeats the SYN or sends everything in flight again |
| LossyStart.AnyOrderRecovers | engine/src/session.cpp:285-477 | after any lossy run from the first SYN on that ends so, one timeout and deliveries in any order complete the transfer with everything delivered |
| LossyStart.RecoversFromStart | engine/src/session.cpp:285-477 | after any lossy run of a started transfer in which neither side gave up there is a run that completes it with everything delivered |
| StraySyn.StraySynSpoils | engine/src/session.cpp:292-307 | a run of two packets without loss in which a SYN repeated too early leaves one undelivered with nothing under way |
| Farewell.DeliverLLeaves | engine/src/session.cpp:325-339 | only the first FIN is answered, once, and every delivery to the listener keeps FIN, answer or closing in being |
| Farewell.DeliverILeaves | engine/src/session.cpp:325-394 | FIN is sent once, exactly when the initiator is drained, and its answer closes it |
| Farewell.LossFreeCloses | engine/src/session.cpp:285-414 | under every order of delivery a loss-free exchange ends with the initiator closed by FIN-ACK and the listener closing if and only if there was a packet to send; with none the initiator stays active and complete |
| LostFin.ClosingForEver | engine/src/session.cpp:325-394 | with no answer and no FIN that would still be answered under way, an initiator that has said FIN stays closing in every run |
| LostFin.ClosesIff | engine/src/session.cpp:325-394 | it can still be closed by some run if and only if an answer is under way, or a FIN and a listener that has seen none or delivered nothing |
| LostFin.DroppedFin | engine/src/session.cpp:385-389 | once the network drops its one FIN, no run closes it |
| Counterexamples.FinCanBeLost | engine/src/session.cpp:385-389 | every transfer of a packet or more has a run of deliveries and one loss, of its FIN, after which no run closes the initiator |
| DeadPeer.SilentPeerIsDead | engine/src/session.cpp:446-469 | a sender that hears nothing fails once a slot has used up its retransmissions |
| DeadPeer.DeadAfterTwentyOne | engine/src/session.cpp:446-469 | twenty-one ticks a timeout apart suffice |
| DeadPeer.AliveAfterTwenty | engine/src/session.cpp:446-469 | with fresh slots twenty ticks fail nothing |
| DeadPeer.StartedIsDead | engine/src/session.cpp:425-444 | a started initiator without an answer fails after twenty-one timeouts |
| DeadPeer.TimeoutLimit | engine/src/session.cpp:449-461 | in any run no packet is retransmitted on timeout more than twenty times |
| MediaTransfer.StepMedia | engine/src/session.cpp:166-233 | every step keeps what was sent a subsequence of the queue, what was consumed its wire size, and the capture its frames |
| MediaTransfer.SinkIsPrefix | engine/src/session.cpp:263-266 | at every moment the sink is a prefix of what was sent, and that is the queue with chunks left out |
| MediaTransfer.AllSentIsFile | engine/src/session.cpp:166-283 | complete without drops, the sink is the normalised input if and only if as many packets were sent as the file has chunks |
| MediaTransfer.CaptureIsSent | engine/src/session.cpp:196-233 | in every run captured and pending frames are exactly the first transmissions' payloads |
| MediaTransfer.FramesAtEof | engine/src/session.cpp:225-233 | at end of file there is one frame per unit if and only if the last is not torn |
| Pacing.FirstTransmissionsBounded | engine/src/session.cpp:164-187 | first transmissions stay under the burst plus what the ticks earned, and under 6250 bytes plus 12.5 per microsecond |
| Pacing.SkipsIffStarved | engine/src/session.cpp:166-224 | a filling loses a chunk if and only if it begins with fewer tokens than the wire size of the chunks that window and timeline admit, and then just one |
| Pacing.EnoughTokens | engine/src/session.cpp:183-186 | tokens for every free slot rule starvation out |
| Starvation.StepSkips | engine/src/session.cpp:164-249 | a step loses one chunk if it fills the window so, and none otherwise |
| Starvation.RunSkips | engine/src/session.cpp:164-249 | in every run as many chunks are taken and never sent as fillings began so |
| Starvation.FileToFile | engine/src/session.cpp:166-283 | complete without drops, the sink is the normalised input if and only if no filling began so, and then it has the input's units |
| Starvation.FramesOfFile | engine/src/session.cpp:225-233 | at end of file with no filling begun so, there is one frame per unit if and only if the last is not torn |
| StreamCompletion.SmoothGoesOn | engine/src/session.cpp:285-477 | in both modes, deliveries and ticks that repeat no greeting and drop nothing keep every number in flight on its way, on its way back, or in the reorder buffer |
| StreamCompletion.StreamCompletes | engine/src/session.cpp:166-477 | under every order of such deliveries and ticks a stream that has run dry has delivered everything sent, is complete exactly at end of file, and has filled the sink with the normalised input if and only if it is there and no filling began starved |
| Schedule.ToTheEnd | engine/src/session.cpp:158-250 | packets answered a second apart, and a tick when the next chunk is due, take a stream to the end of its file with no chunk starved |
| Schedule.FileCanArrive | engine/src/session.cpp:158-283 | for every file of at most 2^32 - 8 chunks there is a loss-free run that completes the transfer with the sink the normalised input |
| Pacing.FirstBurstLosesChunk | engine/src/session.cpp:178-186 | a file that begins with six full chunks loses its sixth unless a tick came first |
| Pacing.DeadlineIff | engine/src/session.cpp:124-140 | the test for a retransmission is whether one timeout from now lies before the playback time less 50 ms; `Feedback` and `TimeoutScan` say what follows from it |
| Holes.LateIsNeverResent | engine/src/session.cpp:396-469 | once the stream has started no packet and no timeout makes the initiator send a unit again that is of time 0 or past its deadline |
| Holes.LateIsHole | engine/src/session.cpp:396-469 | when the network has lost every copy of such a unit, no run delivers it or anything after it |
| Holes.HoleForEver | engine/src/session.cpp:396-469 | no run delivers a number lost by the network and dropped or doomed by the sender, or any after it |
| Deliverable.DeliverableIff | engine/src/session.cpp:343-469 | in both modes, with nothing in flight but what is present or past its deadline, some run delivers everything sent if and only if no packet is lost |
| Deliverable.FileIff | engine/src/session.cpp:166-469 | once a transfer is complete, whatever was dropped, some run makes the sink the normalised input if and only if no filling began starved and no packet is lost |
| Counterexamples.AnyFileCanBeLost | engine/src/session.cpp:124-140 | of every file that has a chunk the network can lose the first packet for good |
| Counterexamples.LongFileLosesChunk | engine/src/session.cpp:178-186 | a file with one parameter set of 7196 bytes or more loses its sixth chunk when the exchange opens |
| Counterexamples.TornFileFrames | engine/src/session.cpp:199-233 | a file of one unit that ends in 00 00 01 at the start of a chunk is captured as two frames |
| Counterexamples.SynReplayDeliversTwice | engine/src/session.cpp:292-307 | a run in which a copied SYN makes the listener deliver the one packet sent twice |
| Link.Link.Take | engine/src/session.cpp:285-477 | one step of the network model, taken by two session objects, changes them as the model says |
| Link.Link.Run | engine/src/session.cpp:285-477 | so does every run |
| Link.Transfer | engine/src/session.cpp:52-61 | when the sending object reports completion the receiving object has delivered every packet with its payload |
| Base64.DecodesBack | engine/src/transport.cpp:29-50 | the encoding of RFC 4648 decodes back for every byte string |
| Base64.Vectors | engine/src/transport.cpp:29-50 | the test vectors of RFC 4648, section 10 |
| Base64.Feed | engine/src/transport.cpp:35-42 | a byte shifted into the overflowing accumulator completes just the 6-bit groups of the standard |
| Base64.Base64Encode | engine/src/transport.cpp:29-50 | the loop computes the standard's encoding, whose length is a multiple of four |

## Left out

- Sockets, epoll, threads, the run loop and the demultiplexer of engine/src/transport.cpp: I/O; the network of the model and explicit instants take their place.
- Frame accumulation on reception in engine/src/transport.cpp: it works on arrival order and promises nothing about order.
- Reading files, running a transcoder and writing the sink file: the loaded bytes come in and the sink is a byte sequence; a transcoder's exit code is not part of the model.
- The admin server, the control plane, the client and the dashboard: plumbing over libraries.
- engine/src/frame_buffer.cpp and engine/src/audio_buffer.cpp: drop-oldest queues that would only add easy members.
- `jitter_estimate_ms`, the metrics getters, and the counters `frames_received` and `media_bytes_received`: read-only dashboard figures.
- Several epochs: the code promises nothing after a SYN replay, as the two restart lemmas show.
- Rounding of doubles: rates, tokens and the RTT estimator are real numbers; the code's truncations to integers are kept.
- Wrap-around of the 64-bit statistics and of the `int` retry counters: they are unbounded here.
- `JitterBuffer.Pop` reads the sequence number before it removes the front packet; the code reads it afterwards through a reference into the removed element.
- RFC 6298 features the code does not have: Karn's rule, exponential backoff of the timer, the one-second minimum.
- Completion.LossFreeCompletes: stated for dummy mode; a media transfer may stop for want of tokens until the next tick, and `StreamCompletion.StreamCompletes` is its counterpart.
- Farewell.LossFreeCloses: stated for dummy mode and without loss; `LostFin.ClosesIff` covers loss in both modes.
- Recovery.RecoversFromLoss: stated for dummy mode; in media mode a late packet is dropped instead.
- LossyStart.AnyOrderRecovers: stated for dummy mode, for the same reason, and with no SYN in the way; `StraySyn.StraySynSpoils` shows one in the way, and `LossyStart.RecoversFromStart` gives some run in every case.
- Starvation.FileToFile: stated for transfers without deadline drops; `Deliverable.FileIff` covers those with drops.
- Deliverable.DeliverableIff: a listener that has closed is not covered; it accepts nothing more.
- StreamCompletion.StreamCompletes: for runs in which no timer repeats a greeting, gives up or drops a packet at its deadline; `Deliverable.FileIff` covers the drops.
- Link.Transfer: stated for dummy mode, so that the two objects share no media source.
- Pacing.FirstBurstLosesChunk: one way to lose a chunk; `SkipsIffStarved` is the general statement.
