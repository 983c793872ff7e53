# Verified model of dmludp

dmludp is a loss-tolerant UDP transport. The sender cuts a byte stream into chunks of at most 1024
bytes, sends one congestion window of them per round, asks the receiver which offsets arrived
(`ElictAck`) and reads back pairs of an offset and 0 or 1 (`ACK`). A chunk leaves the send queue when
it was reported received, or when its priority-based budget of transmissions is spent.

This project models the protocol core of `src/lib.rs`, the window control of `src/recovery/mod.rs` and
the wire format and retry window of `src/packet.rs`, and proves what they keep over whole runs.

| file | models |
|---|---|
| `Bytes.dfy`, `Ordered.dfy`, `RangeBuf.dfy` | big-endian words and byte slices, iteration order of ordered maps, chunks |
| `Packet.dfy`, `RetryWindow.dfy` | the 26-byte header and its buffer cursor; the `PktNumWindow` machine |
| `SendBuf.dfy`, `RecvBuf.dfy`, `Recovery.dfy`, `Priority.dfy` | the two buffers, the congestion window, block norms and priorities |
| `Connection.dfy`, `Endpoint.dfy` | one endpoint: first as functions on values, then as the mutable object that refines them |
| `Protocol.dfy`, `Safety.dfy` | sender, receiver and network as a step system, and its invariant |
| `Rounds.dfy`, `Budget.dfy`, `Reading.dfy`, `Reporting.dfy` | rounds, the retransmission budget, reading, and reports over runs |
| `Theorems.dfy`, `Witnesses.dfy` | the main results from the initial state, and runs in which a promise fails |

Each mutable structure of the source (`SendBuf`, `RecvBuf`, `Recovery`, `PktNumWindow`, `OctetsMut`,
`Connection`) is a class whose methods are proved to compute a function on an immutable value of the same
fields; the properties are proved of those functions, and the runs are runs of those values.

## The step system

A world holds both endpoints and every datagram ever sent. A step is a call of `send_all`, `send_data`
on either side, `read`, or the delivery of any datagram sent so far. So datagrams may be lost,
duplicated, reordered and delayed without bound, acknowledgements may be stale or repeated, and the
receiver's hash map of pending reports may be iterated in any order. `send_all` may be called at any
time, mid-round included, unless a result says that its runs are `Orderly` (rounds are started only when
the previous one has stopped or the queue is empty) or `Reported` (`send_all` is called only with a
report processed on every queued transmission). The sender's output buffers hold at least 1050 bytes.
A step that would panic in the source is not defined; `Theorems.PanicIff` says exactly which steps those are.

## Where the code does not do what it promises

Each of these is stated with the exact condition under which the promise holds, and with a run or an
input on which it fails.

- A chunk is sent at most priority plus one times if and only if it is never transmitted on a table entry
  of 0 (`Budget.BudgetAtIff`, `Theorems.BudgetExact`). Calling `send_all` only with all reports in
  guarantees it (`Theorems.BudgetConserved`); merely waiting for the end of the round does not, and then
  a chunk can be sent any number of times (`Witnesses.UnreportedResends`, `Witnesses.BudgetFails`).
- A chunk that is dropped without having arrived was sent exactly priority plus one times if and only if
  that holds of the chunk itself (`Theorems.DropSafetyExact`). A loss report that arrives while a round is
  open on a spent chunk makes it priority plus two (`Witnesses.DropFails`).
- The receiver can read if and only if no data packet was ever delivered that starts before the read
  cursor (`Theorems.ReadingIff`). After one that does, every read answers length 0 for good
  (`Reading.ReadOutcome`). A single duplicate of the first chunk is enough (`Witnesses.StallReached`).
- A read shows a chunk from its first byte even if part of it was read before
  (`RecvBuffer.EmitSingle`, `RecvBuffer.SplitReadRepeats`), and chunks reached before the last one are
  overwritten by it (`RecvBuffer.EmitShows`).
- A finished round has sent the first queued chunk if and only if it was started with the send position at
  the front (`Theorems.RestartSkips`). That is so once the previous round has stopped
  (`Theorems.RoundCalls`); a `send_all` in the middle of a round skips chunks (`Witnesses.MidRoundSkips`),
  and with the position beyond the queue data calls answer `Done` (`Theorems.BeyondQueue`).
- Every block has a norm if and only if the number of floats is 0 or 255 modulo 256
  (`Priority.CoveredIff`); transmitting a chunk of a block without one is the only way a call panics
  (`Theorems.PanicIff`, `Witnesses.PanicReached`). A part of fewer than 255 floats has no norm at all
  (`Priority.NoNormIff`), and with no norms `data_send` itself panics when it reads the split points. The
  255 in the scan also shifts every norm by one float (`Priority.NormOfBlockIff`).
- The rollback comparison holds only for an acknowledgement of 9600 reports that all say "received"
  (`Recovery.IncrementIsCount`); in runs without one a rollback only ever answers 0 or 9600
  (`Recovery.RollbackWindows`).
- `StartAck` is written with the code of `Fin` (`Packet.HeaderRoundTrip`).
- In the retry window, from a start or a `clear_record`, an offset is refused exactly as often as its
  budget says if and only if it is not the entry of an unknown block, or is not checked, or is checked
  before the rest of its block (`RetryWindow.RefusalsExactIff`, `RetryWindow.BlockEntryAccepted`).
- With an output buffer below 1024 bytes behind the header nothing is copied and the caller's own bytes
  would go out under the chunk's offset (`SendBuffer.EmitSmallBuffer`).

## Model

| member | source | states |
|---|---|---|
| `Theorems.DropSafety` | src/lib.rs:587-628 | in every run, a chunk that has left the queue is stored at the receiver byte for byte, or was sent more often than its priority |
| `Theorems.DropSafetyExact` | src/lib.rs:1862-1913 | a chunk that left the queue without arriving was sent exactly priority plus one times if and only if it was never itself transmitted on an entry of 0 |
| `Theorems.BudgetExact` | src/lib.rs:884-888 | over any run: no transmission meets a budget entry of 0 if and only if no chunk was sent more than priority plus one times |
| `Theorems.BudgetConserved` | src/lib.rs:602-606 | with reports processed before each `send_all`, mid-round or not: entry plus transmissions equals priority plus one, no underflow, and dropped chunks arrived or used exactly their budget |
| `Theorems.TransmissionsBounded` | src/lib.rs:872-909 | in runs within budget the data packets ever sent are at most the sum of priority plus one over the chunks created, so at most four per chunk |
| `Theorems.ContentAgreement` | src/lib.rs:1415-1428 | bytes held for an offset in the queue, in flight, in the receive buffer or in store are the stream's bytes at that offset |
| `Theorems.ChunksAgree` | src/lib.rs:1707-1760 | chunks held anywhere are disjoint when their offsets differ and identical when they agree |
| `Theorems.StreamCut` | src/lib.rs:691-711 | `off`, `written_data` and `total_offset` are equal, and the chunks ever created concatenate, in order, to the written part of the stream |
| `Theorems.BlockAlignment` | src/lib.rs:967-971 | no chunk straddles a 1024-byte block, so the priority of its offset is that of each of its bytes |
| `Theorems.Solicitation` | src/lib.rs:796-845 | offsets asked about, followed by the pending ones, are the offsets sent; at most eight are pending, none once stopped |
| `Theorems.SolicitationBody` | src/lib.rs:796-845 | every solicitation in flight carries exactly the offsets sent before it and not asked about before it, so the hard-coded length 64 announces no leftover bytes |
| `Theorems.DataPackets` | src/lib.rs:872-909 | every data packet in flight is one whole chunk with its length and its block's priority |
| `Theorems.PanicIff` | src/lib.rs:988-1000 | in every reachable state a call panics if and only if it would transmit a chunk of a block without a norm; never if all blocks have one |
| `Theorems.SendWindow` | src/lib.rs:1799-1852 | in every run, mid-round `send_all` included, the transmissions since the last `send_all` are consecutive queued chunks, in order, once each, at most the window plus 1024 bytes; `len` and `used_length` agree, never go below zero and cover the bytes left |
| `Theorems.SendWindowOrderly` | src/lib.rs:1799-1852 | in orderly runs they are the first chunks and the length fields are exactly the bytes left |
| `Theorems.WriteFillsWindow` | src/lib.rs:1672-1705 | after any write the queue holds at most the larger of window and retained bytes, and exactly the window while stream is left |
| `Theorems.RestartCalls` | src/lib.rs:717-938 | a round started in any state with a chunk at the send position has stopped after exactly m + ceil((n + m)/8) calls, n offsets being unasked and m the least number of chunks from there on that fill the window, or all; each call puts one packet on the wire, and exactly those chunks are sent |
| `Theorems.RestartSkips` | src/lib.rs:1788-1853 | a finished round has sent a queued chunk if and only if it lies in that part of the queue |
| `Theorems.BeyondQueue` | src/lib.rs:872-877 | with the position beyond the queue a data call sends nothing and answers `Done` |
| `Theorems.RoundCalls` | src/lib.rs:717-943 | from a stopped round after any history, or from an empty queue in an orderly run: exactly m + ceil(m/8) calls, and the first m chunks are sent |
| `Theorems.ReadingIff` | src/lib.rs:1444-1525 | in every run the cursor is at or below every buffered chunk if and only if no data packet was delivered late |
| `Theorems.ReadShows` | src/lib.rs:1444-1525 | in runs without late packets a read shows only stream bytes, the last chunk in reach from its first byte on, where the gaps before it put it |
| `Reporting.ArrivalReported` | src/lib.rs:1061-1072 | a solicitation delivered after a chunk was stored is answered by "received": the report is pending or out, and nothing sent from then on reports the chunk as lost |
| `Reporting.ReceivedLeaves` | src/lib.rs:617-620 | once an acknowledgement reporting a chunk as received is delivered, the chunk is gone from the queue after the next `send_all`, for good, and never sent again |
| `Reporting.Records` | src/lib.rs:872-909 | in every run data packets and solicitations are numbered 0, 1, 2, ... and the receiver records each chunk's block priority |
| `Witnesses.UnreportedResends` | src/lib.rs:872-909 | for any ranking and any n there is an orderly run from the start that sends the only chunk n times |
| `Witnesses.BudgetFails` | src/lib.rs:884-888 | such a run sends a chunk twice its budget and underflows an entry |
| `Witnesses.DropFails` | src/lib.rs:602-606 | an orderly run in which a chunk that never arrives is sent priority plus two times and then dropped |
| `Witnesses.PanicReached` | src/lib.rs:988-1000 | an orderly run after which the next data call panics, for any stream whose second block has no norm |
| `Witnesses.MidRoundSkips` | src/lib.rs:650-713 | a run after which `send_all` starts a round behind the first, unflagged chunk |
| `Witnesses.StallReached` | src/lib.rs:1415-1525 | a run from the start with one duplicate that leaves the receiver unreadable |
| `Safety.StepInv` | src/lib.rs:528-938 | every step of either endpoint and of the network keeps the global invariant |
| `Safety.RunInv` | src/lib.rs:528-938 | the invariant holds after every run |
| `Safety.InitInv` | src/lib.rs:408-510 | new endpoints satisfy the invariant, for any stream and ranking |
| `Safety.NoPanic` | src/lib.rs:988-1000 | in an invariant state a step is defined if and only if the chunk it would transmit has a norm |
| `Safety.CoveredNoPanic` | src/lib.rs:988-1000 | with a norm for every block no step panics |
| `Safety.PieceContent` | src/lib.rs:1707-1760 | a created chunk is a non-empty slice of the written stream at its offset |
| `Safety.PiecesDisjoint` | src/lib.rs:1707-1760 | two created chunks are equal or do not overlap |
| `Safety.WriteTiles` | src/lib.rs:1665-1762 | a write with any window extends the tiling of the stream and keeps the queue among the created chunks |
| `Safety.WriteSettles` | src/lib.rs:1862-1899 | what a write drops had arrived or was sent more often than its priority |
| `Safety.TransmitFields` | src/lib.rs:872-909 | one transmission: which counters change, and a packet with the chunk's offset, priority, length and bytes |
| `Safety.TransmitSafe` | src/lib.rs:872-909 | a transmission keeps the invariant's sender part and produces an honest packet |
| `Safety.LeftExact` | src/lib.rs:884-888 | counting down from the priority is exact as long as the budget is not exceeded |
| `Safety.SpentBudget` | src/lib.rs:602-606 | an entry of 0, wrapped around or not, takes more transmissions than the priority |
| `Safety.FlagSettles` | src/lib.rs:596-628 | true reports, however old, flag only chunks that arrived or whose budget is spent |
| `Safety.AbsorbSafe` | src/lib.rs:587-643 | processing a true acknowledgement keeps the sender's part of the invariant |
| `Safety.ElictBody` | src/lib.rs:796-845 | the body of a solicitation is exactly the unasked offsets, so the length 64 fits when the round runs on |
| `Safety.CheckLossTrue` | src/lib.rs:1061-1072 | reports say "received" only for offsets that were stored |
| `Safety.StoreInv` | src/lib.rs:566-573 | storing a created chunk, new or repeated, keeps the receive buffer well shaped and its content agreed |
| `Safety.PassiveSends` | src/lib.rs:767-793 | the receiver only sends handshakes, stops and acknowledgements of its pending reports |
| `Safety.DeliverASender` | src/lib.rs:528-579 | any datagram that reaches the sender is harmless or carries true reports, which are absorbed |
| `Budget.BudgetStepAt` | src/lib.rs:884-888 | one step takes a chunk out of its budget if and only if it transmits that chunk on an entry of 0 |
| `Budget.BudgetAtIff` | src/lib.rs:884-888 | over any run a chunk stays within its budget if and only if it is never transmitted on an entry of 0 |
| `Budget.BudgetStepIff` | src/lib.rs:884-888 | one step leaves the budget if and only if it transmits on an entry of 0 |
| `Budget.BudgetIff` | src/lib.rs:884-888 | the same over any run from any invariant state within budget |
| `Budget.StepTransmits` | src/lib.rs:872-909 | only a data transmission extends the list of sent offsets, by the offset at the send position |
| `Budget.WriteAffordable` | src/lib.rs:1665-1762 | with all reports in, every chunk queued by a write can still be sent |
| `Budget.AbsorbReports` | src/lib.rs:596-628 | a report on a chunk whose budget is spent flags it |
| `Budget.ReportedRun` | src/lib.rs:884-888 | over runs with reports before each `send_all` nothing is ever overspent |
| `Budget.WithinAllowance` | src/lib.rs:884-888 | budgets kept per offset bound the number of transmissions altogether |
| `Budget.Conserved` | src/lib.rs:884-888 | within budget, entry plus transmissions is priority plus one |
| `Rounds.StartRound` | src/lib.rs:650-713 | `send_all` from position 0 with nothing unasked opens a round with nothing sent |
| `Rounds.AccountsStep` | src/lib.rs:1665-1853 | every step keeps the length fields equal, non-negative and at least the bytes left, and the round's transmissions consecutive |
| `Rounds.AccountsRun` | src/lib.rs:1665-1853 | the same over every run |
| `Rounds.EmitMoves` | src/lib.rs:1788-1853 | a data call sends the chunk at the position, or nothing and leaves the front at 0 |
| `Rounds.TransmitProgress` | src/lib.rs:1788-1853 | each transmission of a round sends the next chunk of the queue |
| `Rounds.RoundRun` | src/lib.rs:650-938 | the round invariant holds over every orderly run |
| `Rounds.SendACalls` | src/lib.rs:717-938 | each call of a running round succeeds, brings the stop one call nearer and follows the plan of chunks |
| `Rounds.OtherCalls` | src/lib.rs:528-579 | deliveries and reads in between do not change how far a round is |
| `Rounds.RoundLength` | src/lib.rs:717-938 | with n calls left a round has stopped after exactly n of them, whatever arrives in between |
| `Rounds.RoundFromStart` | src/lib.rs:650-943 | the count and the chunks sent, from any invariant state with a chunk at the position |
| `Reading.ReadableStep` | src/lib.rs:1415-1525 | one step keeps the buffer readable if and only if it was and nothing late is delivered |
| `Reading.ReadableIff` | src/lib.rs:1415-1525 | the same over any run; unreadable is for good |
| `Reading.ReadOutcome` | src/lib.rs:1444-1525 | a readable buffer is read without underflow and leaves no chunk before the cursor; any other read copies nothing and answers length 0 |
| `Reading.ReadsStream` | src/lib.rs:1444-1525 | what a read of a readable buffer shows, byte by byte, in any invariant state |
| `Reading.DuplicateStalls` | src/lib.rs:1415-1525 | delivering the first chunk twice with a read in between leaves the receiver unreadable |
| `Connection.AckBodyRoundTrip` | src/lib.rs:767-793 | the encoded reports are decoded one for one and their number is the body length over 16 |
| `Connection.AckAnnounced` | src/lib.rs:767-793 | the announced length of an acknowledgement is that of its body, which decodes to the pending reports |
| `Connection.ProcessPairsEffect` | src/lib.rs:596-628 | a chunk is flagged if and only if it was already, or some report on it says received or finds its budget entry at 0; high-priority losses are counted |
| `Connection.AbsorbEffect` | src/lib.rs:587-643 | an acknowledgement as a whole: flags, losses, highest offset, and one update of the accumulators by the sum of the loss weights |
| `Connection.CheckLossAnswers` | src/lib.rs:1061-1072 | each offset asked about is reported 0 if and only if it has arrived, else 1; other pending reports stay |
| `Connection.SendAllWindow` | src/lib.rs:965-986 | a write rolls back to the largest former window, or 9600, if and only if more than 1 in 100 packets was a lost one of high priority; otherwise the window is twice the gains minus the losses, at least 9600, and both accumulators are cleared |
| `Connection.SendAllAnswers` | src/lib.rs:691-711 | `send_all` answers true if and only if stream is left or the queue is not empty, and otherwise only clears the stop flags |
| `Connection.PktTypeTable` | src/lib.rs:1174-1208 | when each packet type is due, and that choosing it resets exactly what made it due |
| `Connection.ReceiveTable` | src/lib.rs:528-579 | what a datagram changes, field by field, and what is answered |
| `Connection.RecvShort` | src/lib.rs:528-541 | buffers shorter than a header are refused, empty ones without being counted |
| `Connection.ElictTooShort` | src/lib.rs:796-845 | a solicitation that does not fit uses up a packet number and nothing else |
| `Connection.ProcessPairsPermutes` | src/lib.rs:596-628 | flags, loss count and weight sum do not depend on the order of the reports |
| `Connection.ReceiveAck` | src/lib.rs:528-579 | receiving an acknowledgement off the wire is absorbing its reports |
| `Connection.AckOrderIrrelevant` | src/lib.rs:587-643 | two acknowledgement datagrams with permuted reports leave the sender in the same state |
| `Endpoint.Connection.constructor` | src/lib.rs:408-510 | the initial state |
| `Endpoint.Connection.Write` | src/lib.rs:965-986 | window choice by loss ratio and the write, as the value function says |
| `Endpoint.Connection.SendAll` | src/lib.rs:650-713 | the object after `send_all` is the value function's state, and its answer |
| `Endpoint.Connection.ProcessPair` | src/lib.rs:597-628 | one report: drop, weight and loss count |
| `Endpoint.Connection.ProcessReports` | src/lib.rs:596-628 | the byte loop over an acknowledgement equals the fold over its decoded reports |
| `Endpoint.Connection.ProcessAck` | src/lib.rs:587-643 | the whole acknowledgement, with the window update |
| `Endpoint.Connection.CheckLoss` | src/lib.rs:1061-1072 | the byte loop over a solicitation equals the fold over its decoded offsets |
| `Endpoint.Connection.Receive` | src/lib.rs:541-579 | the new state and answer for every packet type |
| `Endpoint.Connection.RecvSlice` | src/lib.rs:528-579 | the new state and answer for every buffer, empty and short ones included |
| `Endpoint.Connection.Read` | src/lib.rs:955-957 | reading is emission from the receive buffer |
| `Endpoint.Connection.WritePktType` | src/lib.rs:1174-1208 | the selected type and the flags it resets |
| `Endpoint.Connection.SendElictAck` | src/lib.rs:796-845 | new state, and header and offsets in the output buffer, or the error when they do not fit |
| `Endpoint.Connection.SendApplication` | src/lib.rs:872-909 | new state, and header and chunk in the output buffer, or `Done` |
| `Endpoint.Connection.Iterate` | src/lib.rs:785-790 | some list of all map entries, each once |
| `Endpoint.Connection.SendAck` | src/lib.rs:767-793 | new state and the acknowledgement in the output buffer, for some order of the reports |
| `Endpoint.Connection.SendPacket` | src/lib.rs:743-938 | new state, buffer and answer for the selected type, with the stop check at the end |
| `Endpoint.Connection.SendData` | src/lib.rs:717-938 | new state, the datagram in the buffer and its length, or the error |
| `SendBuffer.PositionalDrop` | src/lib.rs:1862-1899 | when map keys and deque offsets agree, dropping by position is dropping by offset, never exhausts the iterator and keeps the agreement |
| `SendBuffer.IndexOverRuns` | src/lib.rs:1717-1755 | after any run of write, emit and the two drops from an empty queue, the map's keys in order are the deque's offsets, and the next drop removes exactly the flagged chunks |
| `SendBuffer.WriteKeepsValid` | src/lib.rs:1665-1762 | a write keeps the unflagged chunks in order, appends the new ones and leaves no flag set |
| `SendBuffer.AckKeepsValid` | src/lib.rs:1902-1913 | flagging an offset, known or not, keeps the index |
| `SendBuffer.KeptMembers` | src/lib.rs:1862-1899 | exactly the chunks flagged to keep are kept |
| `SendBuffer.CutCarves` | src/lib.rs:1707-1760 | the new chunks of a write carve its input without gap or overlap |
| `SendBuffer.CutInBlocks` | src/lib.rs:1707-1760 | with the lead computed from the offset, no new chunk straddles a block |
| `SendBuffer.CutMaximal` | src/lib.rs:1707-1760 | each new chunk ends at a block boundary or is the last one |
| `SendBuffer.WriteFills` | src/lib.rs:1665-1762 | the bytes queued after a write with any window, and that both length fields are that number |
| `SendBuffer.WriteOpensRound` | src/lib.rs:1665-1762 | a write from position 0 leaves the accounting fields at the start of a round |
| `SendBuffer.EmitStep` | src/lib.rs:1788-1853 | an emission copies the next chunk whole, underflows nowhere, and stops exactly when the window is full or the queue exhausted |
| `SendBuffer.EmitSmallBuffer` | src/lib.rs:1799-1852 | with a smaller buffer nothing is copied and the position stays, but the buffer counts as sent |
| `SendBuffer.EmitBeyond` | src/lib.rs:1799-1852 | with the position beyond the queue nothing is copied, the buffer counts as sent, and when the position is reset |
| `SendBuffer.QuotaIsLeast` | src/lib.rs:1840-1852 | the chunks of a round are the least number that fills the window, or all |
| `SendBuffer.SendBuf.Len` | src/lib.rs:1966-1975 | the length loop is the sum of the chunk sizes |
| `SendBuffer.SendBuf.Cap` | src/lib.rs:1649-1656 | the capacity is the window minus the bytes queued |
| `SendBuffer.SendBuf.RecvAndDrop` | src/lib.rs:1862-1899 | the queue and flag map after a drop |
| `SendBuffer.SendBuf.AckAndDrop` | src/lib.rs:1902-1913 | the flag map after an acknowledgement |
| `SendBuffer.SendBuf.Write` | src/lib.rs:1665-1762 | the whole new state and the bytes written |
| `SendBuffer.SendBuf.OffFront` | src/lib.rs:1765-1777 | the offset of the first non-empty chunk from the position on |
| `SendBuffer.SendBuf.CopyNext` | src/lib.rs:1799-1838 | the copy loop: state, buffer and length |
| `SendBuffer.SendBuf.Emit` | src/lib.rs:1788-1853 | the whole new state, buffer, length, offset and stop flag |
| `RecvBuffer.EmitKeepsCursor` | src/lib.rs:1444-1525 | a read of a well-shaped buffer keeps the cursor at or below every remaining chunk and never moves it back |
| `RecvBuffer.EmitLoopKeepsCursor` | src/lib.rs:1444-1525 | the same for the loop, with no underflow in any turn |
| `RecvBuffer.UnderflowIff` | src/lib.rs:1454-1470 | a read underflows if and only if the first chunk starts before the cursor |
| `RecvBuffer.WriteKeepsCursorIff` | src/lib.rs:1415-1428 | storing a chunk keeps the cursor below everything if and only if the chunk is not late |
| `RecvBuffer.LateChunkBlocks` | src/lib.rs:1444-1525 | with a late chunk in front a read copies and removes nothing and pushes the cursor further |
| `RecvBuffer.EmitLoopLeaves` | src/lib.rs:1444-1525 | wherever the cursor stands, a read only consumes chunks |
| `RecvBuffer.EmitShows` | src/lib.rs:1444-1525 | a whole read of a readable buffer: where the last chunk in reach stands, that every other byte is the caller's or a chunk's, which chunks are left, the cursor and the answered length |
| `RecvBuffer.EmitSingle` | src/lib.rs:1483-1497 | the exact buffer, length and state for a single chunk in reach |
| `RecvBuffer.SplitReadRepeats` | src/lib.rs:1483-1492 | two reads of one byte show the first byte of a chunk twice |
| `RecvBuffer.EmitEmpty` | src/lib.rs:1448-1450 | an empty buffer answers `Done` |
| `RecvBuffer.WriteStores` | src/lib.rs:1415-1428 | a chunk is filed under its end and nothing else changes; when the highest offset moves |
| `RecvBuffer.RecvBuf.Write` | src/lib.rs:1415-1428 | the whole new state |
| `RecvBuffer.RecvBuf.Emit` | src/lib.rs:1444-1525 | the new state, the buffer contents and the answer |
| `RecvBuffer.RecvBuf.EmitTurn` | src/lib.rs:1454-1521 | one turn of the read loop |
| `Recovery.WinAddDecreases` | src/recovery/mod.rs:226-249 | the piecewise cubic strictly decreases on [0, inf), across both jumps |
| `Recovery.CurvePoints` | src/recovery/mod.rs:233-238 | four points of each cubic, the ends of the inner one included |
| `Recovery.UpdatesAdd` | src/recovery/mod.rs:226-249 | any updates grow the accumulators by the gains and losses of the list, and the flag says whether an increment differed from its count |
| `Recovery.WindowIs` | src/recovery/mod.rs:268-289 | the window after any updates is twice their gains minus their losses, at least 9600; what is cleared and what is remembered |
| `Recovery.RunWindow` | src/recovery/mod.rs:268-289 | the same after any run of updates, windows and rollbacks, over the updates since the last window |
| `Recovery.RollbackIs` | src/recovery/mod.rs:341-349 | the largest remembered window is handed out and forgotten, 9600 without one; the accumulators stay |
| `Recovery.LossNeverHelps` | src/recovery/mod.rs:226-289 | for equally long report lists, pointwise larger weights never give a larger window |
| `Recovery.WindowBounds` | src/recovery/mod.rs:268-289 | after any run of updates, windows and rollbacks the window is between 9600 and 19200 per update since the last window, or 9600 |
| `Recovery.IncrementIsCount` | src/recovery/mod.rs:233-241 | the increment equals the report count if and only if there are 9600 reports, all received |
| `Recovery.FormerWindows` | src/recovery/mod.rs:268-289 | in runs without such an acknowledgement the former windows are a subset of {0} and the flag is set from the first update on |
| `Recovery.ZeroRollbacksBounded` | src/recovery/mod.rs:341-349 | rollbacks that answer 0 are paid for by the entries of the former windows |
| `Recovery.RollbackWindows` | src/recovery/mod.rs:341-349 | every rollback answers 0 or 9600, and after the first update at most one answers 0 |
| `Recovery.Recovery.UpdateWin` | src/recovery/mod.rs:226-249 | the new accumulators and flag |
| `Recovery.Recovery.Cwnd` | src/recovery/mod.rs:268-289 | the window handed out and the new state |
| `Recovery.Recovery.Rollback` | src/recovery/mod.rs:341-349 | the window handed out and the new state |
| `Priority.SortedAscends` | src/lib.rs:1230-1230 | the sorted norms are ascending and a permutation |
| `Priority.Quantiles` | src/lib.rs:1223-1232 | the split points are norms with at most 3n/10 and 7n/10 of the norms below and more not above; that many blocks get priority 1, and 1 or 2; priority is monotone in the norm |
| `Priority.ScanSums` | src/lib.rs:1245-1260 | how many norms a part yields and which floats each one sums |
| `Priority.NoNormIff` | src/lib.rs:1230-1232 | a part yields no norm if and only if it has fewer than 255 floats |
| `Priority.NormOfBlockIff` | src/lib.rs:1245-1260 | a norm is that of its own block if and only if the shifted floats have equal squares |
| `Priority.CoveredIff` | src/lib.rs:1236-1262 | every byte of a part of k floats has a norm if and only if k mod 256 is 0 or 255 |
| `Priority.ProcessPart` | src/lib.rs:1236-1262 | the loop appends the floats' bytes and the scanned norms |
| `Priority.PartBytesAt` | src/lib.rs:1253-1254 | the bytes of the i-th float stand at position 4i of the stream |
| `Packet.HeaderRoundTrip` | src/packet.rs:89-153 | with any payload, parsing an encoded header gives every field back; the header itself if and only if its type is not `StartAck` |
| `Packet.ParseRoundTrip` | src/packet.rs:89-153 | re-encoding a parsed header gives its bytes if and only if the type code is 1 to 7 |
| `Packet.TypeCodes` | src/packet.rs:94-146 | the code of each packet type, in both directions |
| `Packet.HeaderLayout` | src/packet.rs:127-153 | where each field stands in a header, words most significant byte first |
| `Packet.ToBytes` | src/packet.rs:127-153 | writes exactly the 26 header bytes at the cursor, or reports that they do not fit |
| `Packet.FromBytes` | src/packet.rs:89-125 | the parsed header or the error, with 26 bytes consumed |
| `RetryWindow.CheckSpendsOne` | src/packet.rs:256-312 | a check answers true if and only if the budget is 0, and otherwise spends one |
| `RetryWindow.CheckLooks` | src/packet.rs:281-296 | a check on the sender's side changes nothing and answers whether the offset was accepted |
| `RetryWindow.AddItemEffect` | src/packet.rs:235-254 | an added offset is accepted from then on, its priority is kept if it is a block's entry, and nothing else changes |
| `RetryWindow.CheckFrames` | src/packet.rs:256-298 | a check of one offset never raises the budget of another |
| `RetryWindow.RefusalsWithinBudget` | src/packet.rs:256-312 | in any interleaving the refusals of an offset are at most its budget |
| `RetryWindow.RefusalsExact` | src/packet.rs:256-312 | from any state, for an offset of a known block or not a block's own entry, every check is refused until the budget is spent, then accepted |
| `RetryWindow.EntryAfter` | src/packet.rs:256-312 | what any checks make of an unknown block's own entry, by which offset of the block came first |
| `RetryWindow.RefusalsExactIff` | src/packet.rs:256-312 | from an empty record the exact count holds if and only if the offset is no unknown block's entry, is not checked, or is checked first in its block |
| `RetryWindow.BlockEntryAccepted` | src/packet.rs:280-292 | the entry of an unknown block is accepted on its first check once another offset of the block was checked |
| `RetryWindow.PktNumWindow.AddItem` | src/packet.rs:235-241 | the new priority and condition entries |
| `RetryWindow.PktNumWindow.CheckReceived` | src/packet.rs:256-298 | the whole new state and the answer |
| `RetryWindow.PktNumWindow.ClearRecord` | src/packet.rs:332-334 | clearing the record keeps the priorities |
| `Bytes.DecodeEncodeWords` | src/lib.rs:1061-1072 | word lists survive encoding as big-endian bytes |
| `Bytes.WordBytes` | src/packet.rs:148-152 | a word is the sum of its eight bytes, the first weighing 256^7 |

## Left out

- Foreign-function glue, sockets and event loops (`src/ffi.rs`, the C and C++ files): no property of their own.
- `src/recovery/modv1.rs` and `src/recovery/NewCubic.rs`: not in the module tree, and hooks the window control does not call.
- `SendBuf::clear`, `SendBuf::reset`, `RecvBuf::reset` and `shutdown` as steps: they empty a buffer without its index.
- Byte reassembly across several chunks or reads: after a copy the length does not advance and a partly consumed chunk is copied again from its start (`RecvBuffer.SplitReadRepeats`), so the source does not do it; what one read shows is `RecvBuffer.EmitShows`.
- Clock and round-trip times: the round-trip time is a flag "zero or not", and measuring it makes it non-zero; `is_ack` and the handshake timer are not modelled.
- Floats are reals: rounding, NaN inputs and the parsing of numbers from text are not modelled; a ratio with zero packets sent follows the source's NaN and infinity comparisons.
- `data_send` more than once per connection, and streams of 2^64 bytes and more.
- Debug builds: an underflowing decrement of a budget entry panics there; the model wraps around as a release build does, and says when it happens.
- `SendState.len` and `usedLength` are integers in the value model, so that an underflow would show as a negative value; `Theorems.SendWindow` shows that none happens in any run.
- The read cursor is unbounded: the source's 64-bit cursor could wrap after 2^64 bytes of reads on a blocked buffer. A wrapped gap is a negative gap here and takes the same branch.
- `max_ack` is carried to `recv_and_drop` as in the source, which ignores it; no claim is made about it.
- Progress output and the unused fields and methods of `Connection` (draining, idle timeout, priorities per offset).
- Priority.CoveredIff: a single part; several parts restart the scan and only shift further.
- SendBuffer.IndexOverRuns: windows and leads are arbitrary, clear and reset are not among the calls.
- Endpoint.Connection.SendData: states nothing about the buffer when an error is returned.
