# Batching relay and epoch-partitioned block store, modelled in Dafny

This project models two parts of a lightweight blockchain relay node.

**The transaction sender** (`src/workers/tx_sender.rs`) has two parts:

- The batching loop of `TxSender::execute` drains an inbound channel into cycles. A cycle keeps polling while its interval is not yet over, or while its length equals the batch size. The cycle then hands its batch to `forward_txs`.
- `forward_txs` sends the batch to the TPU. On success it registers every signature in the `txs_sent` registry with `TxProps::default()`. With a Postgres sink configured, it emits one record per transaction.

**The epoch-partitioned block store** (`history/src/block_stores/postgres_block_store.rs`) keeps one database schema per epoch. It models:

- provisioning of the current and the next epoch's schema
- block writes with a dedup gate, and a parallel copy-in of the block's transactions in at most one chunk per write session
- block reads
- the per-epoch and global slot-range aggregation
- the range-coverage check
- the rotating session of the blocks-table `ANALYZE`

Files:

- `wrappers.dfy`: `Option`.
- `chunking.dfy` (module `Chunking`): `div_ceil`, the chunk size with its `MIN_WRITE_CHUNK_SIZE` floor, and Rust's `slice::chunks`.
- `epoch_schema.dfy` (module `EpochSchema`): schema names of epochs and their parsing.
- `slot_ranges.dfy` (module `SlotRanges`): min/max envelopes, the unique-epoch fold, the global range, and the coverage check as written and as intended.
- `block_store.dfy` (module `BlockStore`): the class `PostgresBlockStore` over an abstract database.
  - The database is a map from schema name to a partition.
  - A partition records which of its objects exist, its `blocks` rows keyed by slot, and its `transactions` rows.
  - SQL statements become their effect on that map.
  - Database failures the code cannot foresee become fault parameters.
  - A panic (`unwrap`, `expect`, `assert!` on a failed result) becomes the outcome `Abort`, kept apart from an `Err` the code returns.
- `batching.dfy` (module `Batching`): the loop of `execute` as a function of what it observes.
  - It reads one clock reading per `Instant::now()` or `elapsed()`, and one `try_recv` result per poll.
  - The loop is specified twice: once with the rule as written, once with the evidently intended rule.
- `tx_sender.dfy` (module `TxSender`):
  - the class `TxSender`, whose registry is a `map` field
  - the class `PostgresSink`, which keeps the messages sent to it
  - the imperative `ForwardTxs` and `Execute`, proved against the functions of `Batching` and `TxSender`

Three behaviours of the code that a reader might expect otherwise:

- An Empty poll changes nothing. A cycle does not end because the channel is momentarily empty.
- A full batch is not flushed before the interval is over; the condition at tx_sender.rs:126 keeps it polling (see Findings).
- A failed chunk is not an `Err` of `write_block`: each result is `unwrap`ped (postgres_block_store.rs:284-286), so it panics, which the model states as `Abort`.

## Model

| member | source | states |
|---|---|---|
| Chunking.DivCeil | history/src/block_stores/postgres_block_store.rs:364-366 | `div_ceil(a, b)` times `b` covers `a`, and one less does not |
| Chunking.DivCeilIsLeast | history/src/block_stores/postgres_block_store.rs:364-366 | no `k` with `k * b >= a` is smaller than `div_ceil(a, b)` |
| Chunking.ChunkSize | history/src/block_stores/postgres_block_store.rs:271-272 | the chunk size is `div_ceil(n, sessions)` or 500, whichever is larger |
| Chunking.Chunks | history/src/block_stores/postgres_block_store.rs:273 | every chunk is non-empty and at most `chunk_size` long; all but the last are exactly `chunk_size` |
| Chunking.ChunksFlatten | history/src/block_stores/postgres_block_store.rs:273 | the chunks concatenate back to the transaction list |
| Chunking.ChunkCount | history/src/block_stores/postgres_block_store.rs:273 | there are `div_ceil(n, chunk_size)` chunks |
| Chunking.ChunkAt | history/src/block_stores/postgres_block_store.rs:273 | chunk `i` is the consecutive slice starting at `i * chunk_size`, ending at the next multiple or at the end |
| Chunking.ChunkCountWithinSessions | history/src/block_stores/postgres_block_store.rs:271-277 | with that chunk size, `div_ceil(n, chunk_size)` is at most the number of sessions, so the `assert!` never fires |
| Chunking.ChunksFitSessions | history/src/block_stores/postgres_block_store.rs:271-277 | at most one chunk per session; the chunks cover all transactions; no chunks exactly when there are no transactions |
| EpochSchema.SchemaName | history/src/block_stores/postgres_block_store.rs:392-398 | a built schema name matches the pattern `^rpc2a_epoch_[0-9]+$` the range lookup selects by |
| EpochSchema.ParseEpochOfSchemaName | history/src/block_stores/postgres_block_store.rs:404-413 | parsing the schema name of an epoch gives back that epoch |
| EpochSchema.SchemaNameInjective | history/src/block_stores/postgres_block_store.rs:94 | distinct epochs get distinct schema names |
| SlotRanges.MinOf | history/src/block_stores/postgres_block_store.rs:432 | SQL `min(slot)` of a non-empty group is a member and below every member |
| SlotRanges.MaxOf | history/src/block_stores/postgres_block_store.rs:432 | SQL `max(slot)` of a non-empty group is a member and above every member |
| SlotRanges.Envelope | history/src/block_stores/postgres_block_store.rs:432-435 | the `[min, max]` range of a group has both ends in the group and contains every member |
| SlotRanges.CollectUnique | history/src/block_stores/postgres_block_store.rs:446-461 | the grouping fold succeeds exactly when no epoch repeats; it then maps each row's epoch to that row's range and has no other keys |
| SlotRanges.CollectEntries | history/src/block_stores/postgres_block_store.rs:446-472 | folding the rows of the grouped query returns exactly the grouped map, so the uniqueness assertion holds |
| SlotRanges.GlobalRange | history/src/block_stores/postgres_block_store.rs:369-387 | the global range starts at the least start and ends at the greatest end, and both are attained |
| SlotRanges.GlobalRangeCoversEveryRange | history/src/block_stores/postgres_block_store.rs:369-387 | a slot inside any per-epoch range is inside the global range |
| SlotRanges.GlobalRangeExample | history/src/block_stores/postgres_block_store.rs:369-387 | {1: [10, 20], 2: [25, 30]} gives [10, 30] |
| SlotRanges.InRangeAsWritten | history/src/block_stores/postgres_block_store.rs:161-163 | `.map(contains).is_some()` is true exactly when the epoch has a range |
| SlotRanges.InRange | history/src/block_stores/postgres_block_store.rs:156-164 | the intended check is true exactly when the epoch has a range containing the slot, and it implies the written check |
| SlotRanges.InRangeAsWrittenIgnoresContainment | history/src/block_stores/postgres_block_store.rs:161-163 | slot 22 of epoch 1 with range [10, 20] is reported in range, although it is outside |
| BlockStore.TransactionRowsRoundTrip | history/src/block_stores/postgres_block_store.rs:246-250 | the transaction infos of the rows `write_block` builds are the block's transactions, in block order, and every row carries the block's slot |
| BlockStore.IntoProducedBlock | history/src/block_stores/postgres_block_store.rs:207-211 | `into_produced_block` keeps the row unchanged (`PostgresBlock::from` of the result gives it back) and carries exactly the given transactions and commitment |
| BlockStore.ReadBackDropsTransactions | history/src/block_stores/postgres_block_store.rs:207-211 | a stored block reads back as the written one with no transactions and commitment `confirmed` |
| BlockStore.ApplyStatement | history/src/block_stores/postgres_block_store.rs:117-143 | each statement touches only its own schema. `CREATE SCHEMA` gives an empty schema with no objects; every other statement creates exactly its own object and keeps the rows |
| BlockStore.ApplyStatementKeepsKeys | history/src/block_stores/postgres_block_store.rs:117-143 | provisioning statements never disturb the slot keys of any `blocks` table |
| BlockStore.StartNewEpoch | history/src/block_stores/postgres_block_store.rs:92-147 | A rejected `CREATE SCHEMA` is `Err`, even for an existing schema, and changes nothing. Otherwise an existing schema gives `Ok(false)` and nothing changes. A new schema gives `Ok(true)` exactly when every statement succeeds, and is then fully provisioned. Otherwise `Err` names the first rejected statement, and the schema holds exactly the objects of the statements before it. No other schema changes; it never panics |
| BlockStore.StopsAtFirstFailure | history/src/block_stores/postgres_block_store.rs:117-143 | after a rejected follow-up statement, an object exists exactly when its statement comes before the rejected one: the `?` chain stops at the first failure |
| BlockStore.StartNewEpochIsIdempotent | history/src/block_stores/postgres_block_store.rs:92-146 | a second call, whose `CREATE SCHEMA` reaches the existence check, for an epoch the first call created reports `false` and changes nothing |
| BlockStore.HalfProvisionedSchemaIsNeverRepaired | history/src/block_stores/postgres_block_store.rs:100-143 | if a follow-up statement fails, the schema stays half provisioned; every later call whose `CREATE SCHEMA` reaches the existence check reports that it exists and repairs nothing |
| BlockStore.PrepareEpochSchemas | history/src/block_stores/postgres_block_store.rs:341-348 | an error on the current epoch is returned and the next epoch is not attempted; an error on the next epoch is returned as it is. On success the database is the one after both calls, both schemas exist, and the result is true exactly when either was missing. It never panics |
| BlockStore.CopyInsCoverBlock | history/src/block_stores/postgres_block_store.rs:271-282 | the copy-ins of `write_block` use distinct write sessions, all below the session count, and together write every transaction row of the block once, in block order |
| BlockStore.ChunkResultsAllOk | history/src/block_stores/postgres_block_store.rs:283-286 | every result `join_all` collects is `Ok` exactly when there is nothing to copy or the transactions table exists, and the database rejects none of the chunks |
| BlockStore.Committed | history/src/block_stores/postgres_block_store.rs:278-286 | if no chunk fails, the rows committed are all the transactions, in order |
| BlockStore.AnalyzeSession | history/src/block_stores/postgres_block_store.rs:307 | `slot % len` is a valid session index, and slot itself while it is below `len` |
| BlockStore.AnalyzeSessionRotates | history/src/block_stores/postgres_block_store.rs:307 | the session repeats every `len` slots |
| BlockStore.GroupedRanges | history/src/block_stores/postgres_block_store.rs:419-440 | the aggregate query has a row exactly for the epochs with at least one stored block |
| BlockStore.SlotsOfEpochCoverAll | history/src/block_stores/postgres_block_store.rs:419-440 | the union over epoch schemas loses no slot: each stored slot lies in its parsed epoch's group, and there are no groups exactly when nothing is stored |
| BlockStore.EnvelopeOfRanges | history/src/block_stores/postgres_block_store.rs:369-387 | min-of-starts to max-of-ends of the per-epoch envelopes is the envelope of every stored slot |
| BlockStore.CoveredIffBetweenStored | history/src/block_stores/postgres_block_store.rs:161-163 | a slot is inside an envelope exactly when it lies between two stored slots |
| BlockStore.UnwrapAll | history/src/block_stores/postgres_block_store.rs:283-286 | unwrapping the results in turn gets through exactly when every chunk succeeded |
| BlockStore.PostgresBlockStore.constructor | history/src/block_stores/postgres_block_store.rs:43-58 | opens `PARALLEL_WRITE_SESSIONS` = 4 write sessions, session `i` at index `i`, so the non-empty assertion holds |
| BlockStore.PostgresBlockStore.ExecuteSimple | history/src/block_stores/postgres_block_store.rs:99-143 | a rejected statement fails and changes nothing, whatever the state of the schema. Otherwise creating an existing schema fails with `DUPLICATE_SCHEMA` and changes nothing, and any other statement takes its effect |
| BlockStore.PostgresBlockStore.StartNewEpochIfNecessary | history/src/block_stores/postgres_block_store.rs:92-147 | the statement sequence with early returns yields exactly the outcome and the database `StartNewEpoch` describes |
| BlockStore.PostgresBlockStore.PrepareEpochSchema | history/src/block_stores/postgres_block_store.rs:341-348 | provisions the slot's epoch and its successor as `PrepareEpochSchemas` describes |
| BlockStore.PostgresBlockStore.SaveBlockRow | history/src/block_stores/postgres_block_store.rs:255-260 | the block insert goes to session 0. It fails without a blocks table, reports `false` for a slot already stored (no change), and otherwise inserts the row and reports `true` |
| BlockStore.PostgresBlockStore.SaveTransactionCopyIn | history/src/block_stores/postgres_block_store.rs:279-280 | a copy-in on session `session` appends its rows exactly when the transactions table exists and the database accepts it |
| BlockStore.PostgresBlockStore.CopyInChunk | history/src/block_stores/postgres_block_store.rs:278-282 | chunk `i` extends the copy-in log and the committed rows by that chunk's step |
| BlockStore.PostgresBlockStore.CopyInChunks | history/src/block_stores/postgres_block_store.rs:278-283 | one copy-in per chunk on its own session. The surviving chunks' rows are appended in order, and the results say which chunks survived |
| BlockStore.PostgresBlockStore.WriteBlock | history/src/block_stores/postgres_block_store.rs:239-301 | a failed save is `Err` with only the save issued; an existing slot is `Ok` with no transaction write (the dedup gate). Otherwise there are at most `len` chunks on sessions `0..`, and the result is `Ok` exactly when every chunk commits, after which the transactions table holds the block's transactions; a failed chunk is `Abort` |
| BlockStore.PostgresBlockStore.Query | history/src/block_stores/postgres_block_store.rs:166-223 | a missing row is `Err(not found)`; a failed query panics; otherwise the stored row comes back with no transactions and commitment `confirmed` |
| BlockStore.PostgresBlockStore.GetSlotRangeByEpoch | history/src/block_stores/postgres_block_store.rs:389-482 | no epoch schemas give the empty map, and a failed union query panics. Otherwise the map has a key exactly for epochs with a block, and maps each to `[min, max]` of its stored slots |
| BlockStore.PostgresBlockStore.GetSlotRange | history/src/block_stores/postgres_block_store.rs:369-387 | panics exactly when nothing is stored (the `expect("non-empty result")`) or the per-epoch lookup panics; otherwise `[min, max]` over every stored slot |
| BlockStore.PostgresBlockStore.IsBlockInRange | history/src/block_stores/postgres_block_store.rs:156-164 | as written: true exactly when the slot's epoch has any stored block |
| BlockStore.PostgresBlockStore.IsSlotCovered | history/src/block_stores/postgres_block_store.rs:156-164 | intended: true exactly when the slot lies between two stored slots of its epoch; a true answer implies the written one |
| BlockStore.PostgresBlockStore.WriteBlockTwice | history/src/block_stores/postgres_block_store.rs:255-265 | writing a new block twice: the first write saves the block and copies its transaction chunks, as `WriteBlock` gives, and the second appends only the block insert to the log, succeeds, and changes nothing; the block reads back without transactions |
| BlockStore.PostgresBlockStore.OptimizeBlocksTable | history/src/block_stores/postgres_block_store.rs:304-337 | `ANALYZE` of the slot's epoch blocks table goes to session `slot % len` and the call returns `Ok` |
| Batching.ElapsedGrows | src/workers/tx_sender.rs:126 | with a clock that does not run backwards, `elapsed()` never shrinks, so once the interval is over it stays over; measured from `prev_inst` it is the time since then |
| Batching.CycleOpen | src/workers/tx_sender.rs:126 | as written, a cycle keeps polling exactly while the interval is not over or it holds exactly the batch size: at the batch size it never closes, and with the interval over and any other length it closes. Under the intended rule no cycle polls past the interval or at the batch size; below both, either rule keeps polling |
| Batching.RunFrom | src/workers/tx_sender.rs:120-141 | the loop consumes polls only forward, never past the end |
| Batching.Execute | src/workers/tx_sender.rs:107-143 | the run stops at the first Disconnected poll (the `bail!`), with the partial cycle still open: its items are never forwarded |
| Batching.RunFromAccounts | src/workers/tx_sender.rs:123-136 | from any state where every received item is sitting in a batch or in the open cycle, this stays true for the rest of the run |
| Batching.ExecuteAccountsForEveryItem | src/workers/tx_sender.rs:123-136 | the forwarded batches followed by the unforwarded cycle hold exactly the received items in arrival order; Empty polls add nothing |
| Batching.RunFromKeepsPaired | src/workers/tx_sender.rs:123-131 | pairwise pushes keep `sigs_and_slots` and `txs` of equal length |
| Batching.ExecuteKeepsVectorsPaired | src/workers/tx_sender.rs:123-131 | in every forwarded batch and in the open cycle, the two vectors have equal length |
| Batching.RunFromClosesWhenDue | src/workers/tx_sender.rs:126 | every batch closed from any state was closed by a failing loop condition |
| Batching.BatchesCloseOnlyWhenDue | src/workers/tx_sender.rs:126 | as written, a batch is forwarded only once its interval has elapsed and its length differs from the batch size |
| Batching.AsWrittenFlushesOnTimeout | src/workers/tx_sender.rs:126-141 | as written, a cycle whose interval is over and whose length is not the batch size is forwarded at its next check, as the next batch |
| Batching.RunFromStopsAtDisconnect | src/workers/tx_sender.rs:132-134 | a run stopped by the channel stopped at a Disconnected poll, with no earlier one consumed |
| Batching.DoneIsPrefix | src/workers/tx_sender.rs:139-140 | batches already forwarded stay forwarded, in order |
| Batching.FullBatchStarves | src/workers/tx_sender.rs:126 | as written, a cycle holding exactly `batch_size` items on an idle channel is never forwarded |
| Batching.FullBatchStarvesExample | src/workers/tx_sender.rs:126 | batch size 1: one transaction, then Empty polls, is still unforwarded at time 1000 |
| Batching.OversizedBatchExample | src/workers/tx_sender.rs:126 | batch size 1: three transactions within the interval form one batch of 3 |
| Batching.IntendedFlushesFullBatch | src/workers/tx_sender.rs:126 | under the intended rule, a full cycle is forwarded at its next check |
| Batching.IntendedRunBounded | src/workers/tx_sender.rs:126 | under the intended rule, no cycle and no batch ever exceed the batch size |
| Batching.IntendedBatchesBounded | src/workers/tx_sender.rs:126 | under the intended rule, every forwarded batch has at most `batch_size` items |
| TxSender.ResendResetsStatus | src/workers/tx_sender.rs:41-48 | forwarding a registered signature again replaces its entry by `TxProps::default()`: a recorded status is dropped and the send time is the new one |
| TxSender.AsI64 | src/workers/tx_sender.rs:93 | `recent_slot as i64` keeps the same 64 bits as two's complement, and keeps the value below 2^63 |
| TxSender.Records | src/workers/tx_sender.rs:88-102 | one record per entry of the batch |
| TxSender.RecordsCarryEntries | src/workers/tx_sender.rs:88-102 | record `i` carries entry `i`'s signature and its slot cast to `i64`, forwarded slot 0, no processed slot or compute units, and the batch's `quic_response` |
| TxSender.MarkSent | src/workers/tx_sender.rs:77-79 | after the insert loop, every signature of the batch maps to `TxProps::default()`, overwriting any earlier entry; every other entry is unchanged; nothing else is added |
| TxSender.ForwardRegistry | src/workers/tx_sender.rs:67-86 | an empty batch or a failed send leaves the registry unchanged. A successful send registers every signature of the batch with no status, stamped now, and keeps every other entry |
| TxSender.SinkRecords | src/workers/tx_sender.rs:75-102 | one record per entry, in batch order, whether or not the send succeeded. Record `i` carries entry `i`'s signature and slot cast to `i64`, forwarded slot 0, no processed slot or compute units, and `quic_response` 1 exactly when the send succeeded, else 0 |
| TxSender.RecordsFollowForwardedEntries | src/workers/tx_sender.rs:88-102 | over a run, the sink receives one record per forwarded entry, in forwarding order, with that entry's signature |
| TxSender.SentSignaturesStayRegistered | src/workers/tx_sender.rs:75-81 | once a batch was sent, each of its signatures stays registered with no status through every later forward |
| TxSender.PollCycle | src/workers/tx_sender.rs:126-137 | the inner `while` ends at the disconnect, at the end of the streams, or at the first failing check, in the state `RunFrom` prescribes |
| TxSender.PostgresSink.Send | src/workers/tx_sender.rs:90-100 | a message sent to the sink is appended to what it received |
| TxSender.TxSender.constructor | src/workers/tx_sender.rs:51-56 | a new sender has an empty registry |
| TxSender.TxSender.ForwardTxs | src/workers/tx_sender.rs:59-104 | the registry becomes `ForwardRegistry` of the old one, and the sink receives exactly `SinkRecords` of the batch |
| TxSender.TxSender.RunCycle | src/workers/tx_sender.rs:120-141 | one outer iteration: a stop forwards nothing. Otherwise the cycle's batch is forwarded as the next batch, and the run continues from where the cycle closed |
| TxSender.TxSender.Execute | src/workers/tx_sender.rs:107-143 | stops for the reason `Batching.Execute` gives. The registry and the sink's messages are those after forwarding exactly the batches of that run, in order |

## Left out

- SQL text and its builders are left out, as are sessions, the session cache, and the `expect` of `get_session`. Statements are their effect on the abstract database. The schema-creation query runs on a read session and the writes on the write sessions, which the model does not distinguish.
- `check_role` (postgres_block_store.rs:70-89) is a startup query of the database; the model assumes the role exists.
- `progress_block_commitment_level` (postgres_block_store.rs:226-237) always returns `Ok(())` and changes nothing, so `WriteBlock` omits the call.
- Concurrency is modelled in sequence, with the effect of each task applied in order. This covers `tokio::spawn` in `forward_txs` and `optimize_blocks_table`, and `join_all` over the chunk copy-ins. The chunks' rows are appended in chunk order.
- The detached `ANALYZE` task and its `unwrap` are left out. `OptimizeBlocksTable` records the statement and its session only.
- The TPU send (`try_send_wire_transaction_batch`) is the outcome parameter `sent` (per batch, `sendOk`). The channel is the sequence of `try_recv` results.
- `Instant`, `Duration`, and all logging and timing output are left out. Time is natural-number clock readings, and `TxProps.sent_at` is the reading at which the batch is forwarded.
- `Batching.RunFrom`: the endless outer `loop` runs over finite clock and poll sequences. A run that exhausts either stops with `TraceEnded`; this stop does not exist in the source.
- The `expect` on a failing Postgres channel send (tx_sender.rs:100) is not modelled: the sink never fails.
- `TransactionStatus` is a placeholder without fields: no modelled code reads them.
- `get_epoch_at_slot` and `get_next_epoch` are arbitrary functions fixed at construction; `+ 1` is not assumed.
- `build_schema_name` and `parse_epoch_from_schema_name`: postgres_epoch.rs is not part of this model. The name is taken to be `rpc2a_epoch_` followed by the epoch in decimal, and parsing reads the decimal suffix.
- `Chunking.DivCeil`: does not model the `usize` overflow of `a + b - 1`. Lengths and session counts are unbounded naturals.
- Slots and block heights are naturals. The `i64`/`u64` casts of slot columns in `query` and `get_slot_range_by_epoch` are not modelled; only `recent_slot as i64` in `forward_txs` is (`AsI64`).
- The database's order of the aggregate query's rows is not modelled: `Entries` lists the grouped map in ascending epoch order. `CollectUnique`'s contract does not depend on the order.
- A rejected statement is one fault parameter. A rejected `CREATE SCHEMA` stands for any failure other than an existing schema (missing privilege, lost connection), and is taken to be reported before the existence check.
- The epoch in a schema that does not parse is not modelled. The range lookup only selects names matching the decimal pattern.
- `BlockStore.PostgresBlockStore.GetSlotRangeByEpoch`, `GetSlotRange`, `IsBlockInRange` and `IsSlotCovered` are ghost functions over the database. As modelled, the union query fails, and the `unwrap` panics, only when some epoch schema lacks a `blocks` table; other query failures are not modelled.
- `BlockStore.PostgresBlockStore.SaveTransactionCopyIn`: the `bool` inside each copy-in's `Ok` is ignored, as `unwrap` ignores it.
- The tests of postgres_block_store.rs (lines 485-563) need a live database and are not modelled.

## Findings

| source | as written | input that shows it | evidently intended | confidence | as-written member | corrected member |
|---|---|---|---|---|---|---|
| src/workers/tx_sender.rs:126 | the cycle keeps polling while the interval is not over OR the length equals the batch size | batch size 1, interval 10: one transaction, then only Empty polls; at time 1000 the batch is still not forwarded | close once the interval is over or the batch is full: `elapsed < interval && len < batch_size` | not executed | Batching.FullBatchStarves | Batching.IntendedFlushesFullBatch |
| history/src/block_stores/postgres_block_store.rs:161-163 | `map(contains)` followed by `is_some()` is true whenever the epoch has a range | ranges {1: [10, 20], 2: [25, 30]}, slot 22 in epoch 1: reported in range | the containment result itself: the slot lies inside its epoch's range | not executed | SlotRanges.InRangeAsWrittenIgnoresContainment | SlotRanges.InRange |
