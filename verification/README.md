# CAN-TS block transfer in Dafny

A model of the CAN-TS layer of Cannect, with proofs. A CAN-TS node answers and sends telecommands,
telemetry requests, block writes (SETBLOCK) and block reads (GETBLOCK). A block transaction involves two
nodes: the initiator, a blocking call of up to 71 atomic sections that shares a `pending` record with the thread
that delivers frames, and the responder, which keeps one session per peer and is driven by frames alone.
Up to 512 bytes are cut into 8-byte blocks, numbered in six bits, sent, stored by number, reported as a
bitmap and joined again, over a bus that may lose, repeat, delay and reorder frames.

`dafny verify dfyconfig.toml` checks everything.

## How the model is built

| layer | modules |
|---|---|
| types, bit-level codec, blocks | `CanTypes`, `Codec`, `Blocks`, `Sequences` |
| the protocol as functions: one reaction per inbound frame, one move per atomic section of a call | `SetBlockSpec`, `GetBlockSpec`, `ProtocolSpec` |
| one call on one node, with frames handled between its sections | `SetBlockRun`, `SetBlockOutcome`, `GetBlockRun`, `GetBlockOutcome`, `GetBlockSeries` |
| the classes with their fields, proved against those functions | `SetBlockManager`, `GetBlockManager`, `CanTsProtocol` |
| two nodes and a bus | `SetBlockNetwork`, `SetBlockStale`, `SetBlockDelivery`, `GetBlockNetwork`, `GetBlockStale`, `GetBlockResponses`, `GetBlockDelivery` |
| whole nodes: everything they send and ask, read off the messages; two of them and a bus | `EndpointHistory`, `EndpointWrites`, `EndpointReads`, `EndpointDelivery`, `RequestNetwork` |
| one responder and many peers | `SetBlockHistory`, `GetBlockHistory` |
| several calling threads; many nodes | `Outstanding`, `TelemetryCache`, `Quiescence` |

The same `React` and `Advance` functions are what the classes are proved to compute and what the network
modules run, so the end-to-end results speak about the code of the managers.

Points that decide how statements are worded:

- **Atomic steps.** Every mutex section is one step. Frames of one interface are handled one at a time
  (`src/CanDispatcher.cpp:150-182`), so the three sections of a status request are one step. The pending
  record is shared: a call is a series of sections, and before each of them any batch of frames may be
  handled (a `Slot`).
- **Waits.** A wait with a timeout is the section that reads the condition when the wait is over, with
  any frames handled before it. That covers every wake-up and every timeout.
- **Environment.** What handlers answer, whether a frame is taken for sending and which frames arrive are
  parameters of the steps. A payload has at most eight bytes.
- **Addresses.** Nodes have distinct addresses, and no node uses the broadcast address 0 as its source: a
  responder would send its reply to everyone.
- **One writer, one reader.** `setBlock` and `getBlock` have no guard against a second call, so a call
  starts with a cleared pending record; every exit leaves it cleared.
- **Empty transfers.** A SETBLOCK transfer without data makes a block count as missing, even one received
  before. A GETBLOCK transfer without data counts as received.
- **Block address.** The responder stores the address bytes of a request but hands only the peer, channel
  0 and the payload to its application, and so does the model. Addresses longer than eight bytes are cut.

Where the code and its comments disagree, the model follows the code:

- `include/cannect/cants/GetBlockManager.hpp:81` promises the data of the last successful transfer. The
  code replaces the data as soon as 64 blocks are there, and a refusal after that still fails the read.
  `GetBlockSeries.DataIsLastSuccess` gives the exact condition over every series of reads,
  `GetBlockOutcome.FailedReadKeepsData` that for one read, `FailedReadCanReplaceData` the input.
- `include/cannect/cants/CanTsProtocol.hpp:153` promises the last successful telemetry. A refusal takes its
  place, and since a refusal sent by this code carries no data there is then nothing to get:
  `TelemetryCache.CacheIsLastSuccess` gives the exact condition over every history of calls,
  `TelemetryCache.RefusalWipesCache` the input.
- `include/cannect/cants/SetBlockManager.hpp:75` promises true only if the peer processed all blocks. With
  frames of an earlier transaction still on the bus that is false for some kinds of frames, and
  `SetBlockStale.SafeExactlyDespite` says for which; `GetBlockStale.SafeExactlyDespite` does so for reads.
- `include/cannect/cants/CanTsProtocol.hpp:146` promises true when the peer acknowledges the telecommand. A
  left-over acknowledgement or request on the channel breaks that: `RequestNetwork.SafeExactlyDespite`.
- A read can return true with a mixture of responses if the bus repeats its request and the application
  answers the copies with responses that differ in two blocks or more. `GetBlockResponses.SafeExactlyWith`
  gives the exact condition on the bus and the application.
- A session that the application has taken can report a missing block again, because an empty transfer takes
  a block back. `SetBlockHistory.ReportsOnlyGainBits` and `FinishedStaysFull` give the exact conditions.

## Model

| member | source | states |
|---|---|---|
| SetBlockNetwork.WriteIsSafe | src/cants/SetBlockManager.cpp:22-378 | In every run with loss, duplication, delay and reordering, with foreign traffic and any old session at the responder, a write that returned true put exactly its data, zero-padded to whole blocks, into the peer's application, which accepted it in this transaction; holds even amid left-over REQUEST, ABORT, NACK and unfinished REPORT frames |
| SetBlockNetwork.QuietWriteDelivers | src/cants/SetBlockManager.cpp:89-187 | From a quiet channel every payload the application is ever offered from the writer is the padded data, whether or not the write succeeds |
| SetBlockNetwork.StepKeeps | src/cants/SetBlockManager.cpp:22-246 | The inductive invariant behind both: transfers and status requests of this write exist only once the session is one of this write, a finished session was delivered, and a finished full report implies acceptance |
| SetBlockNetwork.FreshReport | src/cants/SetBlockManager.cpp:162-185 | A report of a session of this write that claims to be finished with all n bits set implies that the padded data was accepted |
| SetBlockNetwork.CompleteBlocks | src/cants/SetBlockManager.cpp:107-124 | A complete session of a write holds exactly the first blocks of its data |
| SetBlockStale.SafeExactlyDespite | src/cants/SetBlockManager.cpp:205-241 | Over sets of left-over frames told apart by kind and done flag: writes are safe amid them if and only if none is a TRANSFER, ACK, STATUS_REQUEST or finished REPORT between the two nodes |
| SetBlockStale.StaleAckFools | src/cants/SetBlockManager.cpp:205-214 | A late ACK starts the transfers before the request is handled and can make a write of lost data return true |
| SetBlockStale.StaleReportFools | src/cants/SetBlockManager.cpp:230-241 | A late finished report can make a write return true without any acceptance |
| SetBlockStale.StaleTransferFools | src/cants/SetBlockManager.cpp:68-76 | A late transfer can put an old block into the accepted payload |
| SetBlockStale.StaleStatusRequestFools | src/cants/SetBlockManager.cpp:89-187 | A late status request reports on the old session, and the new write takes that report for its own |
| SetBlockDelivery.SeriesCompletes | src/cants/SetBlockManager.cpp:189-378 | On a loss-free, ordered bus without timeouts any series of writes made back to back, each starting as soon as the one before has returned, succeeds write by write exactly as the application accepts; the padded data are offered once each, in order; every run ends, with all writes returned, no frame left and no session for the writer. The ABORT of one write and its ACK meet the next write, whose request that ACK may seem to grant, and do no harm |
| SetBlockDelivery.WriteCompletes | src/cants/SetBlockManager.cpp:248-378 | For a single write of n blocks and any old session: at most 3n + 13 events, result and offered payload as above |
| SetBlockDelivery.SessionWhenReported | src/cants/SetBlockManager.cpp:35-49 | When the report has come, the responder's session holds the first eight bytes of the block address and the padded data |
| SetBlockDelivery.CallerHears | src/cants/SetBlockManager.cpp:205-241 | The next reply of such a run, also the ACK of an earlier ABORT, moves the waiting writer from one position to the next |
| SetBlockDelivery.NextStep | src/cants/SetBlockManager.cpp:370-377 | What is left of one write is what the next one starts with |
| SetBlockDelivery.OneStep | src/cants/SetBlockManager.cpp:22-378 | Each event moves a series from one position to the next and leaves exactly one event less to come |
| SetBlockOutcome.WriteOutcome | src/cants/SetBlockManager.cpp:248-378 | A write always returns within n + 7 sections with its record cleared, true if and only if its arguments are admissible, the peer's first answer is an ACK, every frame is taken, and the peer's last NACK or REPORT in the report phase is a finished report with all n bits set; it has then sent REQUEST, the n numbered blocks, STATUS_REQUEST and ABORT in this order |
| SetBlockOutcome.ScriptSpells | src/cants/SetBlockManager.cpp:281-335 | The frames of a write, spelled out by number, kind and payload |
| SetBlockOutcome.ReturnedResult | src/cants/SetBlockManager.cpp:272-377 | The same wherever the call is seen to have returned |
| SetBlockOutcome.FirstAnswerDecides | src/cants/SetBlockManager.cpp:205-228 | In the request phase the peer's first ACK or NACK decides; later ones and other peers change nothing that matters |
| SetBlockOutcome.LastVerdictDecides | src/cants/SetBlockManager.cpp:216-241 | In the report phase the peer's last NACK or REPORT decides |
| SetBlockOutcome.NotWaiting | src/cants/SetBlockManager.cpp:205-241 | Outside the two waiting phases no frames change the pending record |
| SetBlockOutcome.TransferStage | src/cants/SetBlockManager.cpp:307-321 | After k sections of the transfer loop blocks 0 to k - 1 have been sent in order, or the write has failed |
| SetBlockRun.ReturnedIsFinal | src/cants/SetBlockManager.cpp:370-378 | A write that has returned stays as it is |
| SetBlockHistory.HistoryExplains | src/cants/SetBlockManager.cpp:28-203 | After any frames from any peers each session is the one its peer's last REQUEST opened, block i is the payload of the last TRANSFER i since then, and the application was offered exactly the complete, not yet taken payloads, in order |
| SetBlockHistory.PeersDoNotInterfere | src/cants/SetBlockManager.cpp:49-203 | For every peer, its session, the replies to it and its deliveries equal those of the run restricted to its own frames |
| SetBlockHistory.RepliesExplained | src/cants/SetBlockManager.cpp:28-203 | After any frames from any peers, the reply to the next one: REQUEST is acknowledged if and only if it names an address, TRANSFER if and only if the session has a block of its number, ABORT always, a status request gets a report with a bit for exactly the received blocks and the done flag, or a refusal if no session takes blocks; replies repeat number and payload |
| SetBlockHistory.AtMostOneAcceptance | src/cants/SetBlockManager.cpp:141-160 | Of the payloads offered between REQUESTs and ABORTs of a peer the application has accepted one if the session is finished, and none if it is not |
| SetBlockHistory.FinishedStays | src/cants/SetBlockManager.cpp:117-160 | The done flag of a session stays set until the peer's next REQUEST or ABORT |
| SetBlockHistory.RefusedIsOfferedAgain | src/cants/SetBlockManager.cpp:141-160 | Each status request that finds every block of a session that is not finished offers the joined blocks to the application and records its answer |
| SetBlockHistory.ReportsOnlyGainBits | src/cants/SetBlockManager.cpp:68-76 | The reports of a session only gain bits if and only if no empty transfer carries the number of a block that is received when it arrives |
| SetBlockHistory.FinishedStaysFull | src/cants/SetBlockManager.cpp:107-185 | From its request on, a finished session always reports every block if and only if no empty transfer takes a received block back after the payload was taken |
| SetBlockHistory.EmptyTransferClearsABit | src/cants/SetBlockManager.cpp:68-76 | It happens: a report of a finished session loses a bit |
| SetBlockSpec.AssembledNonEmpty | src/cants/SetBlockManager.cpp:117-124 | The joined payload is non-empty exactly when all blocks are received and the session is not finished |
| SetBlockSpec.ReportBits | src/cants/SetBlockManager.cpp:162-185 | A report has one bit per received block and no other, the size in its sequence field, the session's done flag, and is never cut to eight bytes |
| SetBlockSpec.ReactLeavesOthers | src/cants/SetBlockManager.cpp:49-203 | A frame touches no session but its sender's |
| SetBlockSpec.ReactAnswersSender | src/cants/SetBlockManager.cpp:52-59 | At most one reply, to the sender, of a kind that asks for no reply; deliveries name the sender |
| SetBlockManager.SetBlockManager.SetBlock | src/cants/SetBlockManager.cpp:248-378 | The call on the class: returns true exactly as WriteOutcome says, clears the record, returns false and sends nothing for an empty address or data of 0 or more than 512 bytes, and on success has sent, spelled out, the request with the first eight address bytes, the numbered padded pieces, the status request and the abort |
| SetBlockManager.SetBlockManager.RunWrite | src/cants/SetBlockManager.cpp:248-378 | The phases in sequence compute the sections of SetBlockRun |
| SetBlockManager.SetBlockManager.OnFrame | src/cants/SetBlockManager.cpp:22-246 | Sessions, pending record, replies and handler calls after one frame; every reply is a SETBLOCK frame that fits 29 bits |
| SetBlockManager.SetBlockManager.OnRequestFrame | src/cants/SetBlockManager.cpp:28-61 | A request replaces the session and is accepted if it names an address |
| SetBlockManager.SetBlockManager.OnTransferFrame | src/cants/SetBlockManager.cpp:63-87 | A transfer is stored under its number in an accepted session that has that number, refused otherwise |
| SetBlockManager.SetBlockManager.OnStatusRequestFrame | src/cants/SetBlockManager.cpp:89-187 | Joins a complete payload, consults the application once, records its answer and reports |
| SetBlockManager.SetBlockManager.OnAbortFrame | src/cants/SetBlockManager.cpp:189-203 | Drops the sender's session and acknowledges |
| SetBlockManager.SetBlockManager.SendReport | src/cants/SetBlockManager.cpp:177-185 | The report frame decodes to the report of the session |
| SetBlockManager.SetBlockManager.AwaitFinalReport | src/cants/SetBlockManager.cpp:344-368 | Judges the recorded report and clears the record |
| SetBlockManager.SetBlockManager.TransferPhase | src/cants/SetBlockManager.cpp:307-321 | The sending loop, frames interleaved |
| SetBlockManager.SplitIntoBlocks | src/cants/SetBlockManager.cpp:256-270 | The loop cuts the data into zero-filled 8-byte blocks |
| SetBlockManager.ReceivedFlags | src/cants/SetBlockManager.cpp:109-113 | The loop flags the non-empty blocks |
| SetBlockManager.CheckAllBits | src/cants/SetBlockManager.cpp:356-364 | The loop with early exit decides whether bits 0 to n - 1 are all set |
| GetBlockNetwork.ReadIsPieced | src/cants/GetBlockManager.cpp:22-294 | For any application, in every run with loss, duplication, delay and reordering, a read that returned true left 512 bytes in lastData, each block of which is that block of a response stored for the reader in this transaction; holds even amid left-over REQUEST, ABORT and NACK frames |
| GetBlockNetwork.ReadIsSafe | src/cants/GetBlockManager.cpp:22-294 | If one response was stored for the reader, lastData is exactly that response |
| GetBlockNetwork.UnrepeatedReadIsSafe | src/cants/GetBlockManager.cpp:28-88 | From a quiet channel, if the bus does not repeat the request, the same holds for any application |
| GetBlockNetwork.StepKeeps | src/cants/GetBlockManager.cpp:22-211 | The inductive invariant behind them, for every event |
| GetBlockNetwork.OnceStep | src/cants/GetBlockManager.cpp:58-78 | An unrepeated request is in flight, lost or served at most once altogether |
| GetBlockNetwork.FullStep | src/cants/GetBlockManager.cpp:232-239 | From a quiet channel every request of the reader asks for 64 blocks, so every response stored for it has 512 bytes |
| GetBlockStale.SafeExactlyDespite | src/cants/GetBlockManager.cpp:154-206 | Reads that are served one response are safe amid left-over frames if and only if none of them is an ACK, START or TRANSFER between the two nodes |
| GetBlockStale.StaleAckFools | src/cants/GetBlockManager.cpp:154-163 | A late ACK starts the transfers before the request is served, and the old response is read |
| GetBlockStale.StaleStartFools | src/cants/GetBlockManager.cpp:90-146 | A late START makes the responder send its old blocks into the new read |
| GetBlockStale.StaleTransferFools | src/cants/GetBlockManager.cpp:176-206 | Late transfers are taken for those of the new read |
| GetBlockResponses.SafeExactlyWith | src/cants/GetBlockManager.cpp:28-206 | From a quiet channel, with an application that gives responses from a set R: every read that returns true returns a response that was given, if and only if the bus never repeats a request or any two 512-byte responses in R differ in at most one block |
| GetBlockResponses.MixtureIsOne | src/cants/GetBlockManager.cpp:176-206 | Responses that pairwise differ in at most one block cannot be mixed, block by block, into a new one |
| GetBlockResponses.RepeatedRequestMixes | src/cants/GetBlockManager.cpp:58-78 | Any two responses that differ in two blocks can be mixed: a run from a quiet channel with a repeated request returns true with the mixture |
| GetBlockDelivery.ReadCompletes | src/cants/GetBlockManager.cpp:213-294 | On a loss-free, ordered bus without timeouts every run ends within 72 events, the read has then returned true exactly if the application provided 512 bytes, which lastData then holds; otherwise it keeps the earlier data. No frame is left, but the responder keeps the session with the first eight address bytes and the response, as a read sends no ABORT |
| GetBlockDelivery.OneStep | src/cants/GetBlockManager.cpp:22-294 | Each event moves such a run from one position to the next |
| GetBlockDelivery.EverySlice | src/cants/GetBlockManager.cpp:129-144 | The reader's START yields all blocks of the response in order |
| GetBlockOutcome.ReadOutcome | src/cants/GetBlockManager.cpp:213-294 | A read always returns within five sections with its record cleared, true if and only if it names an address, both frames are taken, the peer's first answer is an ACK, all 64 numbers arrive in the transfer phase and the peer's last word there is a transfer; lastData is replaced exactly when all 64 numbers have arrived |
| GetBlockOutcome.ReturnedResult | src/cants/GetBlockManager.cpp:285-293 | The same wherever the call is seen to have returned |
| GetBlockOutcome.TransfersDecide | src/cants/GetBlockManager.cpp:165-206 | What any batch of frames in the transfer phase leaves in the record and in lastData: the last transfer of each number, received flags, and the verdict |
| GetBlockOutcome.FirstAnswerDecides | src/cants/GetBlockManager.cpp:154-174 | In the request phase the peer's first ACK or NACK decides |
| GetBlockOutcome.OrderDoesNotMatter | src/cants/GetBlockManager.cpp:176-206 | Rearranging a batch in which equal numbers carry equal data changes neither the collected blocks nor their completeness |
| GetBlockOutcome.SelectiveRetransmission | src/cants/GetBlockManager.cpp:90-206 | However many STARTs with whatever bitmaps, the responder keeps what it has, and a reader that gets every number from the transfers they cause, among any other frames, ends with the response in lastData |
| GetBlockOutcome.FailedReadKeepsData | src/cants/GetBlockManager.cpp:192-204 | A failed read leaves the data of the node that runs it as it was, whatever it was, if and only if it never collected all blocks |
| GetBlockOutcome.FailedReadCanReplaceData | src/cants/GetBlockManager.cpp:165-206 | Any read that names an address can return false with other data than before: a peer that sends all blocks and then refuses |
| GetBlockSeries.DataIsLastSuccess | src/cants/GetBlockManager.cpp:192-306 | After any series of reads, with any frames during and between them, lastData is that of the last successful read if and only if no later read failed after collecting all blocks, or the last such read collected the same data |
| GetBlockRun.ReturnedIsFinal | src/cants/GetBlockManager.cpp:285-294 | A read that has returned stays as it is |
| GetBlockHistory.HistoryExplains | src/cants/GetBlockManager.cpp:28-152 | After any frames from any peers each session is the one its peer's last granted request opened, with its address and the response in blocks; a request is granted if it names an address and the response has exactly its size; refused ones leave the session intact |
| GetBlockHistory.RepliesExplained | src/cants/GetBlockManager.cpp:28-152 | After any frames from any peers, the replies to the next one: a request is acknowledged if and only if it is granted; a START gets exactly the selected blocks of the response, in increasing order, or a refusal without a session; ABORT and replies get none |
| GetBlockHistory.PeersDoNotInterfere | src/cants/GetBlockManager.cpp:59-152 | For every peer, its session and the replies to it equal those of the run restricted to its own frames |
| GetBlockSpec.SelectedExactly | src/cants/GetBlockManager.cpp:107-144 | A START yields a transfer of block i if and only if bit i is set, with its eight bytes, and nothing else |
| GetBlockSpec.SelectedInOrder | src/cants/GetBlockManager.cpp:129-144 | They go out in strictly increasing order |
| GetBlockSpec.AllBlocksSelected | src/cants/GetBlockManager.cpp:262-270 | The reader's bitmap selects exactly blocks 0 to 63 |
| GetBlockSpec.ReactLeavesOthers | src/cants/GetBlockManager.cpp:45-56 | A frame touches no session but its sender's, and a refused request or a START not even that |
| GetBlockSpec.ReactAnswersSender | src/cants/GetBlockManager.cpp:80-144 | Replies go to the sender: one for a request, at most 64 for a START, none otherwise, none asking for a reply |
| GetBlockManager.GetBlockManager.GetBlock | src/cants/GetBlockManager.cpp:213-294 | The call on the class: result and lastData exactly as ReadOutcome says, record cleared, nothing sent for an empty address, and on success exactly a REQUEST for 64 blocks with the first eight address bytes and a START with 64 bits set |
| GetBlockManager.GetBlockManager.RunRead | src/cants/GetBlockManager.cpp:213-294 | The phases in sequence compute the sections of GetBlockRun |
| GetBlockManager.GetBlockManager.OnFrame | src/cants/GetBlockManager.cpp:22-211 | Sessions, pending record, data and replies after one frame; every reply is a GETBLOCK frame that fits 29 bits |
| GetBlockManager.GetBlockManager.OnRequestFrame | src/cants/GetBlockManager.cpp:28-88 | Stores a response of exactly the requested size and acknowledges, or refuses and keeps what was there |
| GetBlockManager.GetBlockManager.OnStartFrame | src/cants/GetBlockManager.cpp:90-146 | Sends the selected blocks without changing the session, or refuses |
| GetBlockManager.GetBlockManager.OnTransferFrame | src/cants/GetBlockManager.cpp:176-206 | Stores a block by number and joins all 64 once they are there |
| GetBlockManager.GetBlockManager.GetLastData | src/cants/GetBlockManager.cpp:296-306 | Returns the data if there is any |
| GetBlockManager.CutResponse | src/cants/GetBlockManager.cpp:71-75 | The loop cuts a response into 8-byte blocks without padding |
| GetBlockManager.Unselect | src/cants/GetBlockManager.cpp:107-113 | The loop blanks exactly the blocks whose bit is clear |
| GetBlockManager.StartBitmapIsFull | src/cants/GetBlockManager.cpp:262-270 | For 64 blocks the built bitmap is eight bytes of ones |
| Blocks.ChunksRoundTrip | src/cants/SetBlockManager.cpp:256-270 | The blocks of data join to the data followed by zeros only; they are as few as eight bytes each allow, and 1 to 64 exactly for 1 to 512 bytes |
| Blocks.FlattenedSlice | src/cants/GetBlockManager.cpp:197-201 | Slice i of joined 8-byte blocks is block i |
| Blocks.SlicesRoundTrip | src/cants/GetBlockManager.cpp:71-75 | The blocks of a response join to the response |
| Blocks.FlattenConcat | src/cants/SetBlockManager.cpp:119-123 | Joining keeps blocks of any length whole and in order |
| Blocks.Assemble | src/cants/SetBlockManager.cpp:119-123 | The loop of both managers joins the blocks, whatever their lengths |
| Blocks.FlattenNonEmpty | src/cants/SetBlockManager.cpp:117-142 | Non-empty blocks join to a non-empty payload |
| Codec.HeaderRoundTrip | src/cants/CanTsCodec.hpp:56-74 | Decoding the encoding of a header with a 3-bit type and 10-bit command gives it back; the identifier is below 2^29 |
| Codec.EncodeTruncates | src/cants/CanTsCodec.hpp:56-74 | For any header the addresses survive and type and command are cut to their width |
| Codec.IdentifierRoundTrip | src/cants/CanTsCodec.hpp:56-74 | Encoding what was decoded gives the low 29 bits of the identifier |
| Codec.IdentifierLayout | src/cants/CanTsCodec.hpp:46-64 | The identifier in numbers: to times 2^21, type times 2^18, from times 2^10, command |
| Codec.HeaderLayout | src/cants/CanTsCodec.hpp:66-74 | Each header field in numbers, by division and remainder |
| Codec.IdentifierExample | src/cants/CanTsCodec.hpp:56-74 | One identifier in full |
| Codec.TcTmCommandLayout | src/cants/CanTsCodec.hpp:82-85 | Telecommand and telemetry commands in numbers |
| Codec.TcTmCommandMeaning | src/cants/CanTsCodec.hpp:87-92 | Kind and channel of any such command, in numbers |
| Codec.SetCommandLayout | src/cants/CanTsCodec.hpp:102-115 | SETBLOCK commands in numbers, kind by kind |
| Codec.SetCommandMeaning | src/cants/CanTsCodec.hpp:117-124 | Kind, sequence number and done flag of any SETBLOCK command, in numbers |
| Codec.GetCommandLayout | src/cants/CanTsCodec.hpp:126-129 | GETBLOCK commands in numbers, kind by kind |
| Codec.GetCommandMeaning | src/cants/CanTsCodec.hpp:131-136 | Kind and sequence number of any GETBLOCK command, in numbers |
| Codec.BitValue | src/cants/CanTsCodec.hpp:162-173 | Bit 0 of a bitmap byte is its least significant one |
| Codec.TcTmCommandRoundTrip | src/cants/CanTsCodec.hpp:82-92 | Telecommand and telemetry commands fit ten bits and give back kind and channel |
| Codec.SetCommandRoundTrip | src/cants/CanTsCodec.hpp:102-124 | A SETBLOCK command gives back kind and sequence number, done flag clear |
| Codec.ReportCommandRoundTrip | src/cants/CanTsCodec.hpp:107-124 | A report command gives back size and done flag |
| Codec.GetCommandRoundTrip | src/cants/CanTsCodec.hpp:126-136 | A GETBLOCK command gives back kind and sequence number |
| Codec.EchoSetCommand | src/cants/CanTsCodec.hpp:138-138 | A reply built from the low seven bits of a command keeps the sequence number and drops bit 6 |
| Codec.EchoGetCommand | src/cants/CanTsCodec.hpp:138-138 | The same for GETBLOCK |
| Codec.CommandsAreFaithful | src/cants/CanTsCodec.hpp:117-124 | Kind, sequence number and done flag determine a ten-bit command |
| Codec.MakeBitmap | src/cants/CanTsCodec.hpp:149-160 | The loop that sets one bit per received block builds the packed bitmap |
| Codec.BitmapRoundTrip | src/cants/CanTsCodec.hpp:149-173 | Bit i of the bitmap is set if and only if i is below the number of blocks and block i was received |
| Codec.BitmapsWithSameBits | src/cants/CanTsCodec.hpp:162-173 | A bitmap of given length is determined by its bits |
| Codec.StartBitmap | src/cants/GetBlockManager.cpp:262-270 | The all-ones bitmap with the extra bits masked off has exactly bits 0 to numBlocks - 1, for every number of blocks from 1 to 64 |
| ProtocolSpec.FramesAreUnderstood | src/cants/CanTsProtocol.cpp:55-84 | A frame built from a header is read at the other end as that header says |
| ProtocolSpec.BodiesByType | src/cants/CanTsProtocol.cpp:96-119 | Type numbers 0 to 5 are time synchronisation, unsolicited telemetry, telecommand, telemetry, SETBLOCK and GETBLOCK; others mean nothing |
| ProtocolSpec.MessageLayout | src/cants/CanTsProtocol.cpp:82-96 | What a frame says, by the numbers in its identifier |
| EndpointHistory.WriteAnswered | src/cants/CanTsProtocol.cpp:111-113 | After any arrivals, a SETBLOCK message for the node gets as reply messages what the history demands, and the write handler is called with exactly a complete, not yet taken payload |
| EndpointHistory.WritesAsked | src/cants/SetBlockManager.cpp:141-152 | Over any arrivals the write handler is called with exactly the complete, not yet taken payloads read off the messages, in order |
| EndpointHistory.ReadAnswered | src/cants/CanTsProtocol.cpp:114-116 | After any arrivals, a GETBLOCK message for the node gets as reply messages what the history demands, and the read handler is called for exactly each request |
| EndpointHistory.TelecommandAnswered | src/cants/CanTsProtocol.cpp:129-153 | A telecommand request calls the handler with sender, channel and the zero-filled payload and is answered with its verdict and the same payload |
| EndpointHistory.TelemetryAnswered | src/cants/CanTsProtocol.cpp:175-195 | A telemetry request calls the handler and is answered with its eight bytes or refused without data |
| EndpointHistory.RepliesHeard | src/cants/CanTsProtocol.cpp:156-214 | A reply answers the outstanding request of its line if sender and channel match, a telemetry reply is also kept, and any other reply changes nothing |
| EndpointHistory.OthersIgnored | src/cants/CanTsProtocol.cpp:90-119 | Other messages are not answered and put to no handler; messages for other nodes change nothing |
| EndpointHistory.HearPlays | src/cants/CanTsProtocol.cpp:111-116 | The managers of a node have handled exactly the block frames among its arrivals |
| EndpointWrites.WriteIsSafe | src/cants/CanTsProtocol.cpp:82-122 | End-to-end safety between two whole nodes exchanging messages over a lossy bus: a write that returned true made the peer's handler accept exactly the padded data in this transaction, unless the peer has no handler |
| EndpointWrites.QuietWriteAsks | src/cants/SetBlockManager.cpp:141-152 | From a quiet channel the peer's write handler is never called with anything else from the writer |
| EndpointWrites.StepKeeps | src/cants/CanTsProtocol.cpp:82-122 | The inductive invariant behind them, for every event |
| EndpointReads.ReadIsPieced | src/cants/CanTsProtocol.cpp:82-122 | Between two whole nodes: each block of a successful read is that block of a response the peer's handler gave for the reader in this transaction |
| EndpointReads.ReadIsSafe | src/cants/CanTsProtocol.cpp:82-122 | If the handler gave one response, the reader holds exactly that one |
| EndpointReads.StepKeeps | src/cants/CanTsProtocol.cpp:82-122 | The inductive invariant behind them, for every event |
| EndpointDelivery.SeriesCompletes | src/cants/CanTsProtocol.cpp:82-122 | Between two whole nodes on a loss-free, ordered bus: back-to-back writes return true exactly if the handler accepts or is missing, the handler is called with each padded payload once, in order, and every run ends with nothing left |
| EndpointDelivery.SessionOfWrite | src/cants/SetBlockManager.cpp:35-49 | The peer's session holds the first eight bytes of the block address and the padded data when the report has come |
| EndpointDelivery.ReadCompletes | src/cants/CanTsProtocol.cpp:82-122 | Between two whole nodes on a loss-free, ordered bus: a read returns true exactly if the handler gives 512 bytes, which the reader then holds |
| CanTsProtocol.CanTsProtocol.OnFrame | src/cants/CanTsProtocol.cpp:82-122 | Routing by type, refusal of frames for other nodes, and the state, the replies and the handler calls with their arguments, of the whole endpoint; replies have 29-bit identifiers |
| CanTsProtocol.CanTsProtocol.HandleTelecommand | src/cants/CanTsProtocol.cpp:124-168 | Calls the handler with sender, channel and the zero-filled request, answers with its verdict and the same payload; records a matching reply |
| CanTsProtocol.CanTsProtocol.HandleTelemetry | src/cants/CanTsProtocol.cpp:170-215 | Calls the handler with sender and channel, answers with its eight bytes or an empty refusal; records and caches a matching reply |
| CanTsProtocol.CanTsProtocol.SendTelecommand | src/cants/CanTsProtocol.cpp:253-285 | With any frames handled meanwhile: returns false, sends nothing and changes nothing while a telecommand is outstanding; otherwise returns true exactly if its frame was taken and the last reply from that peer on that channel is an acknowledgement, and leaves what those frames leave, the slot free |
| CanTsProtocol.CanTsProtocol.RequestTelemetry | src/cants/CanTsProtocol.cpp:287-319 | The same for telemetry, the cache included |
| CanTsProtocol.CallRefinesEvents | src/cants/CanTsProtocol.cpp:253-319 | Result, slot and cache of such a call are those of the events Call, Arrive, Send and Wake of `Outstanding` |
| CanTsProtocol.CanTsProtocol.StoreTelemetry | src/cants/CanTsProtocol.cpp:208-209 | Overwrites the front of the 8-byte buffer, leaves the rest |
| CanTsProtocol.CanTsProtocol.GetLastTelemetry | src/cants/CanTsProtocol.cpp:344-355 | Shows the cached reply if it has data |
| CanTsProtocol.ToFrame | src/cants/CanTsProtocol.cpp:55-78 | The frame on the bus has a 29-bit identifier and is understood as its header says |
| Outstanding.OneOutstanding | src/cants/CanTsProtocol.cpp:253-319 | In every interleaving of callers and frames the slot is taken if and only if a caller owns it, and never two own it |
| Outstanding.SecondCallIsRefused | src/cants/CanTsProtocol.cpp:257-260 | A call during another one returns false, sends nothing and disturbs nothing |
| Outstanding.HeardSinceClaim | src/cants/CanTsProtocol.cpp:156-167 | While a caller owns the slot its peer and channel stay, and every reply that arrives is seen |
| Outstanding.DispatchHeeds | src/cants/CanTsProtocol.cpp:124-215 | What any message does to the two slots and the cache of an endpoint is what the events of this module say |
| Outstanding.OneCall | src/cants/CanTsProtocol.cpp:253-319 | Result, slot and cache after the sections of one call with any messages in between |
| Outstanding.CallOutcome | src/cants/CanTsProtocol.cpp:267-284 | A granted call returns false if its frame is not taken, and otherwise true exactly if the last reply from its peer and channel since its claim is an acknowledgement; it frees the slot |
| TelemetryCache.CacheIsLastSuccess | src/cants/CanTsProtocol.cpp:201-214 | In every history of calls by any threads the cache shows the last successful response if and only if no refusal of an outstanding request came after it, or the last refusal carried the same bytes |
| TelemetryCache.PlainRefusalEmpties | src/cants/CanTsProtocol.cpp:194-211 | Where refusals carry no data, one after the last success leaves nothing to show |
| TelemetryCache.RefusalWipesCache | src/cants/CanTsProtocol.cpp:201-214 | A granted and then a refused request leave nothing to show |
| TelemetryCache.NodesRefusePlainly | src/cants/CanTsProtocol.cpp:178-194 | Refusals sent by this code carry no data and granted telemetry eight bytes |
| Outstanding.StepKeeps | src/cants/CanTsProtocol.cpp:253-285 | The invariant: the owner is unique and the slot holds its peer, its channel and its last verdict |
| RequestNetwork.CallIsHonest | src/cants/CanTsProtocol.cpp:124-319 | In every run with loss, duplication, delay and reordering, and with any other traffic of these and other nodes: a telecommand that returned true was executed by the peer's application in this call with exactly its channel and payload; a telemetry request that returned true cached eight bytes the peer's application gave in this call for that channel |
| RequestNetwork.SafeExactlyDespite | src/cants/CanTsProtocol.cpp:156-214 | Calls are safe amid left-over messages on their channel between the two nodes if and only if none is an acknowledgement and, for telecommands, none is a request |
| RequestNetwork.StaleAckFools | src/cants/CanTsProtocol.cpp:156-214 | A late acknowledgement makes either call return true although its request was lost |
| RequestNetwork.StaleRequestFools | src/cants/CanTsProtocol.cpp:129-153 | A late telecommand is executed and its acknowledgement taken for that of the new one |
| RequestNetwork.StepKeeps | src/cants/CanTsProtocol.cpp:82-215 | The inductive invariant behind them, for every event |
| RequestNetwork.ReplyShape | src/cants/CanTsProtocol.cpp:148-194 | A reply goes to the sender on the line and channel of its request and says what the application said |
| Quiescence.DeliveryLosesWeight | src/cants/CanTsProtocol.cpp:82-215 | In any set of nodes each delivery, broadcast or not, lowers the weight of the messages in flight |
| Quiescence.RunsEnd | src/cants/CanTsProtocol.cpp:82-215 | So every run of deliveries without new calls is at most as long as the initial weight |
| Quiescence.RepliesAreFinal | src/cants/GetBlockManager.cpp:129-144 | Replies ask for no replies, and a message gets at most 64, or one, or none, by its kind |

## Left out

- Clocks: `lastActivity`, `lastSeen`, the peer table and `isPeerConnected`. No session expires by them. A timeout is a wait that ends with its condition false.
- `prepared` and `channel` of sessions and pending records: set, never read, or always 0.
- Concurrent `setBlock` or `getBlock` calls on one manager, several interface threads feeding one endpoint, and handlers that call back into it: the code does not guard against them.
- A send that reports failure although its frame reached the bus. A block write or read then gives up, and the frame counts as left over.
- Unsolicited telemetry, time synchronisation and keep-alive: single sends and plain callbacks without state. Their frames occur in `Quiescence`, where they get no reply.
- SetBlockManager.SetBlockManager.OnFrame: leaves the block address and the time stamps out of what the application sees, as the code passes neither on.
- SetBlockStale.SafeExactlyDespite: tells left-over frames apart by kind and done flag, not by number, payload or the old session. Whether a late transfer with a number the write does not use does harm depends on which late requests are around.
- Outstanding.OneOutstanding: speaks about one slot at a time; a telecommand and a telemetry call do not touch each other's slot.
- CanTsProtocol.CanTsProtocol.SendTelecommand: frames are handled between its sections, calls of other threads are not; those are in `Outstanding`. The same goes for RequestTelemetry.
- Sockets, the dispatcher's threads and shutdown, signal handling, logging and the command line: foreign calls or no protocol state.
- Mutexes and condition variables themselves: an atomic section is a step.
