/**
 * The epoch-partitioned block store of
 * history/src/block_stores/postgres_block_store.rs over an abstract database:
 * a map from schema name to the partition (tables and rows) it holds. SQL is
 * replaced by its effect on that map, database failures the code cannot
 * foresee by fault parameters, and panics (`unwrap`, `expect`, `assert!`) by
 * the outcome `Abort`.
 */
module BlockStore {
  import opened Wrappers
  import opened EpochSchema
  import opened SlotRanges
  import opened Chunking

  /** `PARALLEL_WRITE_SESSIONS`. */
  const ParallelWriteSessions: nat := 4

  datatype CommitmentLevel = Processed | Confirmed | Finalized

  /** `TransactionInfo` of a produced block. */
  datatype TransactionInfo = TransactionInfo(
    signature: string,
    isVote: bool,
    err: Option<string>,
    cuRequested: Option<nat>,
    prioritizationFees: Option<nat>,
    cuConsumed: Option<nat>,
    recentBlockhash: string,
    message: string)

  /** `ProducedBlock`. */
  datatype ProducedBlock = ProducedBlock(
    slot: Slot,
    blockhash: string,
    blockHeight: nat,
    parentSlot: Slot,
    blockTime: int,
    previousBlockhash: string,
    rewards: Option<string>,
    leaderId: Option<string>,
    transactions: seq<TransactionInfo>,
    commitment: CommitmentLevel)

  /** A row of a partition's `blocks` table (`PostgresBlock`). */
  datatype PostgresBlock = PostgresBlock(
    slot: Slot,
    blockhash: string,
    blockHeight: nat,
    parentSlot: Slot,
    blockTime: int,
    previousBlockhash: string,
    rewards: Option<string>,
    leaderId: Option<string>)

  /** A row of a partition's `transactions` table (`PostgresTransaction::new(tx, slot)`). */
  datatype PostgresTransaction = PostgresTransaction(info: TransactionInfo, slot: Slot)

  /** `PostgresBlock::from(block)`. */
  function BlockRow(b: ProducedBlock): PostgresBlock
  {
    PostgresBlock(b.slot, b.blockhash, b.blockHeight, b.parentSlot, b.blockTime,
                  b.previousBlockhash, b.rewards, b.leaderId)
  }

  /**
   * `PostgresBlock::into_produced_block(transactions, commitment)`: the
   * block carries the row unchanged and exactly the given transactions and
   * commitment.
   */
  function IntoProducedBlock(row: PostgresBlock, txs: seq<TransactionInfo>, commitment: CommitmentLevel): (b: ProducedBlock)
    ensures BlockRow(b) == row
    ensures b.transactions == txs && b.commitment == commitment
  {
    ProducedBlock(row.slot, row.blockhash, row.blockHeight, row.parentSlot, row.blockTime,
                  row.previousBlockhash, row.rewards, row.leaderId, txs, commitment)
  }

  /** `PostgresTransaction::new(tx, slot)` for each transaction, in order. */
  function Tagged(txs: seq<TransactionInfo>, slot: Slot): seq<PostgresTransaction>
  {
    seq(|txs|, i requires 0 <= i < |txs| => PostgresTransaction(txs[i], slot))
  }

  /** The rows `write_block` builds, one per transaction, in block order. */
  function TransactionRows(b: ProducedBlock): (rows: seq<PostgresTransaction>)
    ensures |rows| == |b.transactions|
    ensures forall i :: 0 <= i < |rows| ==> rows[i] == PostgresTransaction(b.transactions[i], b.slot)
  {
    Tagged(b.transactions, b.slot)
  }

  /** The transaction infos of a sequence of rows, in order. */
  function Infos(rows: seq<PostgresTransaction>): seq<TransactionInfo>
  {
    if rows == [] then [] else Infos(rows[..|rows| - 1]) + [rows[|rows| - 1].info]
  }

  /**
   * The transaction rows of a block give back its transactions, in block
   * order, and every row belongs to the block's slot.
   */
  lemma {:induction false} TransactionRowsRoundTrip(b: ProducedBlock)
    ensures Infos(TransactionRows(b)) == b.transactions
    ensures forall r :: r in TransactionRows(b) ==> r.slot == b.slot
  {
    InfosOfTagged(b.transactions, b.slot);
  }

  lemma {:induction false} InfosOfTagged(txs: seq<TransactionInfo>, slot: Slot)
    ensures Infos(Tagged(txs, slot)) == txs
  {
    if txs != [] {
      var n := |txs| - 1;
      InfosOfTagged(txs[..n], slot);
      assert Tagged(txs, slot)[..n] == Tagged(txs[..n], slot);
    }
  }

  /**
   * Reading back a stored block row gives the written block with its
   * transactions dropped and its commitment replaced by the value the reader
   * supplies: the block read path is lossy by design.
   */
  lemma ReadBackDropsTransactions(b: ProducedBlock)
    ensures IntoProducedBlock(BlockRow(b), [], Confirmed) == b.(transactions := [], commitment := Confirmed)
  {
  }

  /** One epoch schema: which of its objects exist, and its rows. */
  datatype Partition = Partition(
    granted: bool,
    hasBlocksTable: bool,
    hasTransactionsTable: bool,
    hasForeignKey: bool,
    blocks: map<Slot, PostgresBlock>,
    transactions: seq<PostgresTransaction>)

  /** The database: schema name to partition. */
  type Database = map<string, Partition>

  const EmptyPartition := Partition(false, false, false, false, map[], [])

  predicate FullyProvisioned(p: Partition)
  {
    p.granted && p.hasBlocksTable && p.hasTransactionsTable && p.hasForeignKey
  }

  /** The `blocks` table is keyed by its `slot` column. */
  ghost predicate WellKeyed(db: Database)
  {
    forall n, s :: n in db && s in db[n].blocks ==> db[n].blocks[s].slot == s
  }

  /** The statements `start_new_epoch_if_necessary` issues, in this order. */
  datatype Statement = CreateSchema | AssignPermissions | CreateBlocksTable | CreateTransactionsTable | AddForeignKey

  function Rank(s: Statement): nat
  {
    match s
    case CreateSchema => 0
    case AssignPermissions => 1
    case CreateBlocksTable => 2
    case CreateTransactionsTable => 3
    case AddForeignKey => 4
  }

  /** Whether the object `statement` creates exists in `p`; the schema itself always does. */
  predicate Has(p: Partition, statement: Statement)
  {
    match statement
    case CreateSchema => true
    case AssignPermissions => p.granted
    case CreateBlocksTable => p.hasBlocksTable
    case CreateTransactionsTable => p.hasTransactionsTable
    case AddForeignKey => p.hasForeignKey
  }

  /** The SQL state of a failed statement. */
  datatype SqlState = DuplicateSchema | OtherSqlState
  datatype SqlResult = Done | SqlError(code: SqlState)

  datatype StoreError =
    | StatementFailed(statement: Statement, epoch: Epoch)
    | SaveBlockFailed(slot: Slot, epoch: Epoch)
    | BlockNotFound(slot: Slot, epoch: Epoch)

  /** `anyhow::Result<T>`, plus `Abort` for a panic. */
  datatype Outcome<+T> = Ok(value: T) | Err(error: StoreError) | Abort(reason: string)

  /** The effect of a statement that succeeded on schema `name`. */
  function ApplyStatement(db: Database, name: string, statement: Statement): (r: Database)
    requires statement != CreateSchema ==> name in db
    ensures name in r
    ensures forall n :: n != name ==> (n in r <==> n in db) && (n in db ==> r[n] == db[n])
    ensures statement == CreateSchema ==>
      r[name].blocks == map[] && r[name].transactions == [] && forall t :: t != CreateSchema ==> !Has(r[name], t)
    ensures statement != CreateSchema ==>
      r[name].blocks == db[name].blocks && r[name].transactions == db[name].transactions
      && forall t :: Has(r[name], t) <==> Has(db[name], t) || t == statement
  {
    match statement
    case CreateSchema => db[name := EmptyPartition]
    case AssignPermissions => db[name := db[name].(granted := true)]
    case CreateBlocksTable => db[name := db[name].(hasBlocksTable := true)]
    case CreateTransactionsTable => db[name := db[name].(hasTransactionsTable := true)]
    case AddForeignKey => db[name := db[name].(hasForeignKey := true)]
  }

  /** No statement of `start_new_epoch_if_necessary` touches the rows of a `blocks` table. */
  lemma ApplyStatementKeepsKeys(db: Database, name: string, statement: Statement)
    requires statement != CreateSchema ==> name in db
    requires WellKeyed(db)
    ensures WellKeyed(ApplyStatement(db, name, statement))
  {
    var after := ApplyStatement(db, name, statement);
    forall n, s | n in after && s in after[n].blocks
      ensures after[n].blocks[s].slot == s
    {
      if n != name {
        assert after[n] == db[n];
      }
    }
  }

  /** Whether `statement` ran when `fault` is the first statement the database rejects. */
  predicate RanBefore(fault: Option<Statement>, statement: Statement)
  {
    fault.None? || Rank(statement) < Rank(fault.value)
  }

  datatype Provisioning = Provisioning(outcome: Outcome<bool>, db: Database)

  /**
   * `start_new_epoch_if_necessary(epoch)` on database `db`, where `fault` is
   * the first statement the database rejects for a reason other than an
   * existing schema. A rejected `CREATE SCHEMA` (missing privilege, lost
   * connection) is reported before the existence check, so it is an error
   * whether or not the schema exists.
   */
  function StartNewEpoch(db: Database, epoch: Epoch, fault: Option<Statement>): (p: Provisioning)
    ensures p.outcome == Ok(false) <==> SchemaName(epoch) in db && fault != Some(CreateSchema)
    ensures p.outcome == Ok(true) <==> SchemaName(epoch) !in db && fault.None?
    ensures p.outcome.Err? <==> fault == Some(CreateSchema) || (SchemaName(epoch) !in db && fault.Some?)
    ensures p.outcome.Err? ==> p.outcome.error == StatementFailed(fault.value, epoch)
    ensures !p.outcome.Abort?
    ensures p.outcome == Ok(false) || fault == Some(CreateSchema) ==> p.db == db
    ensures p.outcome == Ok(true) ==> p.db == db[SchemaName(epoch) := Partition(true, true, true, true, map[], [])]
    ensures p.outcome.Err? && fault != Some(CreateSchema) ==>
      p.db == db[SchemaName(epoch) := Partition(
        RanBefore(fault, AssignPermissions), RanBefore(fault, CreateBlocksTable),
        RanBefore(fault, CreateTransactionsTable), RanBefore(fault, AddForeignKey), map[], [])]
      && SchemaName(epoch) in p.db && !FullyProvisioned(p.db[SchemaName(epoch)])
    ensures forall n :: n != SchemaName(epoch) ==> (n in p.db <==> n in db) && (n in db ==> p.db[n] == db[n])
  {
    var name := SchemaName(epoch);
    if fault == Some(CreateSchema) then Provisioning(Err(StatementFailed(CreateSchema, epoch)), db)
    else if name in db then Provisioning(Ok(false), db)
    else
      var created := Partition(
        RanBefore(fault, AssignPermissions), RanBefore(fault, CreateBlocksTable),
        RanBefore(fault, CreateTransactionsTable), RanBefore(fault, AddForeignKey), map[], []);
      var outcome := if fault.None? then Ok(true) else Err(StatementFailed(fault.value, epoch));
      Provisioning(outcome, db[name := created])
  }

  /**
   * A statement after the first rejected one never runs: every object from
   * the failing statement on is missing, every one before it exists.
   */
  lemma StopsAtFirstFailure(db: Database, epoch: Epoch, fault: Statement, t: Statement)
    requires SchemaName(epoch) !in db && fault != CreateSchema && t != CreateSchema
    ensures var p := StartNewEpoch(db, epoch, Some(fault)).db[SchemaName(epoch)];
      Has(p, t) <==> Rank(t) < Rank(fault)
  {
  }

  /**
   * A second `start_new_epoch_if_necessary` for an epoch whose schema the
   * first one created reports `false` and changes nothing: true, then false.
   */
  lemma StartNewEpochIsIdempotent(db: Database, epoch: Epoch, first: Option<Statement>, second: Option<Statement>)
    requires first != Some(CreateSchema) || SchemaName(epoch) in db
    requires second != Some(CreateSchema)
    ensures var p := StartNewEpoch(db, epoch, first);
      StartNewEpoch(p.db, epoch, second) == Provisioning(Ok(false), p.db)
  {
  }

  /**
   * A schema whose follow-up statements failed stays half provisioned: every
   * later call whose `CREATE SCHEMA` reaches the existence check reports
   * "already exists" and never creates the missing tables.
   */
  lemma HalfProvisionedSchemaIsNeverRepaired(db: Database, epoch: Epoch, first: Statement, later: Option<Statement>)
    requires SchemaName(epoch) !in db && first != CreateSchema && later != Some(CreateSchema)
    ensures var p := StartNewEpoch(db, epoch, Some(first));
      p.outcome.Err? && !FullyProvisioned(p.db[SchemaName(epoch)])
      && StartNewEpoch(p.db, epoch, later) == Provisioning(Ok(false), p.db)
  {
  }

  /**
   * `prepare_epoch_schema`: provision `current`, then `next`, stopping at the
   * first error; the result says whether either was created.
   */
  function PrepareEpochSchemas(db: Database, current: Epoch, next: Epoch,
                               faultCurrent: Option<Statement>, faultNext: Option<Statement>): (p: Provisioning)
    ensures var first := StartNewEpoch(db, current, faultCurrent);
      first.outcome.Err? ==> p == first
    ensures var first := StartNewEpoch(db, current, faultCurrent);
      var second := StartNewEpoch(first.db, next, faultNext);
      first.outcome.Ok? ==> (second.outcome.Err? ==> p == second) && (second.outcome.Ok? ==> p.db == second.db)
    ensures p.outcome.Ok? ==> (p.outcome.value <==> SchemaName(current) !in db || SchemaName(next) !in db)
    ensures p.outcome.Ok? ==> SchemaName(current) in p.db && SchemaName(next) in p.db
    ensures !p.outcome.Abort?
  {
    var first := StartNewEpoch(db, current, faultCurrent);
    if !first.outcome.Ok? then first
    else
      var second := StartNewEpoch(first.db, next, faultNext);
      if !second.outcome.Ok? then second
      else Provisioning(Ok(first.outcome.value || second.outcome.value), second.db)
  }

  /** One of the block store's parallel write sessions, by its index. */
  datatype WriteSession = WriteSession(id: nat)

  /** A statement issued on write session `session`. */
  datatype WriteOp =
    | SaveBlock(session: nat, epoch: Epoch, slot: Slot)
    | CopyInTransactions(session: nat, epoch: Epoch, rows: seq<PostgresTransaction>)
    | AnalyzeBlocks(session: nat, schema: string)

  /** The copy-in of chunk `i` goes to write session `i`. */
  function CopyIns(chunks: seq<seq<PostgresTransaction>>, epoch: Epoch): (ops: seq<WriteOp>)
    ensures |ops| == |chunks|
    ensures forall i :: 0 <= i < |chunks| ==> ops[i] == CopyInTransactions(i, epoch, chunks[i])
  {
    seq(|chunks|, i requires 0 <= i < |chunks| => CopyInTransactions(i, epoch, chunks[i]))
  }

  /** Chunk `i` fails when the database rejects it or the table is missing. */
  predicate ChunkFails(i: nat, faults: set<nat>, hasTable: bool)
  {
    i in faults || !hasTable
  }

  /** Whether each of the first `n` chunks was copied in. */
  function ChunkResults(n: nat, faults: set<nat>, hasTable: bool): (results: seq<bool>)
    ensures |results| == n
    ensures forall j :: 0 <= j < n ==> results[j] == !ChunkFails(j, faults, hasTable)
  {
    seq(n, j requires 0 <= j < n => !ChunkFails(j, faults, hasTable))
  }

  lemma ChunkResultsStep(n: nat, faults: set<nat>, hasTable: bool)
    ensures ChunkResults(n + 1, faults, hasTable) == ChunkResults(n, faults, hasTable) + [!ChunkFails(n, faults, hasTable)]
  {
  }

  /** The rows that reach the `transactions` table: those of the chunks that did not fail. */
  function Committed(chunks: seq<seq<PostgresTransaction>>, faults: set<nat>, hasTable: bool): (rows: seq<PostgresTransaction>)
    ensures (forall i :: 0 <= i < |chunks| ==> !ChunkFails(i, faults, hasTable)) ==> rows == Flatten(chunks)
    decreases |chunks|
  {
    if chunks == [] then []
    else
      var n := |chunks| - 1;
      assert chunks == chunks[..n] + [chunks[n]];
      FlattenAppend(chunks[..n], [chunks[n]]);
      assert Flatten([chunks[n]]) == chunks[n] + Flatten([]);
      Committed(chunks[..n], faults, hasTable) + (if ChunkFails(n, faults, hasTable) then [] else chunks[n])
  }

  /**
   * Every copy-in succeeds exactly when there is nothing to copy or the
   * transactions table exists, and the database rejects none of the chunks.
   */
  lemma ChunkResultsAllOk(n: nat, faults: set<nat>, hasTable: bool)
    ensures (forall j :: 0 <= j < n ==> ChunkResults(n, faults, hasTable)[j])
        <==> (n == 0 || hasTable) && forall j :: j in faults ==> j >= n
  {
    if n > 0 && !hasTable {
      assert !ChunkResults(n, faults, hasTable)[0];
    }
    if exists j :: j in faults && j < n {
      var j :| j in faults && j < n;
      assert !ChunkResults(n, faults, hasTable)[j];
    }
  }

  /** The rows a sequence of copy-ins writes, in order. */
  function CopiedRows(ops: seq<WriteOp>): seq<PostgresTransaction>
  {
    if ops == [] then []
    else
      var last := ops[|ops| - 1];
      CopiedRows(ops[..|ops| - 1]) + (if last.CopyInTransactions? then last.rows else [])
  }

  lemma {:induction false} CopiedRowsOfCopyIns(chunks: seq<seq<PostgresTransaction>>, epoch: Epoch)
    ensures CopiedRows(CopyIns(chunks, epoch)) == Flatten(chunks)
    decreases |chunks|
  {
    if chunks != [] {
      var n := |chunks| - 1;
      CopiedRowsOfCopyIns(chunks[..n], epoch);
      assert CopyIns(chunks, epoch)[..n] == CopyIns(chunks[..n], epoch);
      assert chunks == chunks[..n] + [chunks[n]];
      FlattenAppend(chunks[..n], [chunks[n]]);
      assert Flatten([chunks[n]]) == chunks[n] + Flatten([]);
    }
  }

  /**
   * The copy-ins of `write_block` use distinct write sessions, all below the
   * session count, and together write every transaction row of the block
   * once, in block order.
   */
  lemma CopyInsCoverBlock(block: ProducedBlock, sessions: nat, epoch: Epoch)
    requires sessions > 0
    ensures var rows := TransactionRows(block);
      var ops := CopyIns(Chunks(rows, ChunkSize(|rows|, sessions)), epoch);
      (forall i :: 0 <= i < |ops| ==> ops[i].session < sessions)
      && (forall i, j :: 0 <= i < j < |ops| ==> ops[i].session != ops[j].session)
      && CopiedRows(ops) == rows
  {
    var rows := TransactionRows(block);
    var chunks := Chunks(rows, ChunkSize(|rows|, sessions));
    ChunksFitSessions(rows, sessions);
    CopiedRowsOfCopyIns(chunks, epoch);
  }

  /** A row added to the `blocks` table of schema `name`. */
  function InsertBlock(db: Database, name: string, row: PostgresBlock): Database
    requires name in db
  {
    db[name := db[name].(blocks := db[name].blocks[row.slot := row])]
  }

  /** Rows appended to the `transactions` table of schema `name`. */
  function AppendRows(db: Database, name: string, rows: seq<PostgresTransaction>): Database
    requires name in db
  {
    db[name := db[name].(transactions := db[name].transactions + rows)]
  }

  lemma AppendRowsTwice(db: Database, name: string, a: seq<PostgresTransaction>, b: seq<PostgresTransaction>)
    requires name in db
    ensures AppendRows(AppendRows(db, name, a), name, b) == AppendRows(db, name, a + b)
  {
    assert db[name].transactions + a + b == db[name].transactions + (a + b);
  }

  lemma AppendNoRows(db: Database, name: string)
    requires name in db
    ensures AppendRows(db, name, []) == db
  {
    assert db[name].transactions + [] == db[name].transactions;
    assert db[name].(transactions := db[name].transactions) == db[name];
  }

  lemma CommittedStep(chunks: seq<seq<PostgresTransaction>>, i: nat, faults: set<nat>, hasTable: bool)
    requires i < |chunks|
    ensures Committed(chunks[..i + 1], faults, hasTable)
         == Committed(chunks[..i], faults, hasTable) + (if ChunkFails(i, faults, hasTable) then [] else chunks[i])
  {
    assert chunks[..i + 1][..i] == chunks[..i];
  }

  lemma CopyInsStep(chunks: seq<seq<PostgresTransaction>>, i: nat, epoch: Epoch)
    requires i < |chunks|
    ensures CopyIns(chunks[..i + 1], epoch) == CopyIns(chunks[..i], epoch) + [CopyInTransactions(i, epoch, chunks[i])]
  {
  }

  /** `slot as usize % self.write_sessions.len()`: the session `optimize_blocks_table` uses. */
  function AnalyzeSession(slot: Slot, sessions: nat): (i: nat)
    requires sessions > 0
    ensures i < sessions
    ensures slot < sessions ==> i == slot
  {
    slot % sessions
  }

  /** Consecutive slots rotate through the sessions: the choice repeats every `sessions` slots. */
  lemma AnalyzeSessionRotates(slot: Slot, sessions: nat)
    requires sessions > 0
    ensures AnalyzeSession(slot + sessions, sessions) == AnalyzeSession(slot, sessions)
  {
    var q, r := slot / sessions, slot % sessions;
    assert slot == q * sessions + r;
    assert slot + sessions == (q + 1) * sessions + r;
    ModOfMultiplePlus(q + 1, sessions, r);
  }

  lemma {:induction false} ModOfMultiplePlus(q: nat, n: nat, r: nat)
    requires r < n
    ensures (q * n + r) % n == r
  {
    var x := q * n + r;
    var q', r' := x / n, x % n;
    assert x == q' * n + r' && r' < n;
    MulGap(q', q, n);
    MulGap(q, q', n);
  }

  lemma MulGap(a: nat, b: nat, n: nat)
    ensures a < b ==> a * n + n <= b * n
  {
    if a < b {
      MulMonotone(a + 1, b, n);
      assert (a + 1) * n == a * n + n;
    }
  }

  /** The grouped slots of all schemas that match the epoch-schema pattern and parse to `epoch`. */
  ghost function SlotsOfEpoch(db: Database, epoch: Epoch): set<Slot>
  {
    set n, s | n in db && IsEpochSchemaName(n) && s in db[n].blocks && ParseEpoch(n) == epoch :: s
  }

  ghost function EpochSchemaNames(db: Database): set<string>
  {
    set n | n in db && IsEpochSchemaName(n)
  }

  /** The result of the aggregate query: `SELECT epoch, min(slot), max(slot) ... GROUP BY epoch`. */
  ghost function GroupedRanges(db: Database): (m: map<Epoch, SlotRange>)
    ensures forall e :: e in m <==> SlotsOfEpoch(db, e) != {}
  {
    var epochs := set n | n in db && IsEpochSchemaName(n) :: ParseEpoch(n);
    assert forall e :: SlotsOfEpoch(db, e) != {} ==> e in epochs;
    map e | e in epochs && SlotsOfEpoch(db, e) != {} :: Envelope(SlotsOfEpoch(db, e))
  }

  /** All slots stored in the epoch schemas. */
  ghost function AllSlots(db: Database): set<Slot>
  {
    set n, s | n in db && IsEpochSchemaName(n) && s in db[n].blocks :: s
  }

  /** `r` is `[min, max]` of a non-empty set of slots. */
  ghost predicate IsEnvelope(r: SlotRange, slots: set<Slot>)
  {
    r.start in slots && r.end in slots && forall s :: s in slots ==> Contains(r, s)
  }

  /** Writing a schema twice keeps only the second write. */
  lemma Overwrite(db: Database, name: string, first: Partition, second: Partition)
    ensures db[name := first][name := second] == db[name := second]
  {
  }

  class PostgresBlockStore {
    /** `EpochCache::get_epoch_at_slot`. */
    const epochAtSlot: Slot -> Epoch
    /** `EpochRef::get_next_epoch`: any successor function; `+ 1` is not assumed. */
    const nextEpoch: Epoch -> Epoch
    var writeSessions: seq<WriteSession>
    var schemas: Database
    /** The statements issued on the write sessions, in order. */
    var writeLog: seq<WriteOp>

    ghost predicate Valid()
      reads this
    {
      |writeSessions| > 0 && WellKeyed(schemas)
    }

    /** `PostgresBlockStore::new`: opens `PARALLEL_WRITE_SESSIONS` write sessions. */
    constructor (epochAtSlot: Slot -> Epoch, nextEpoch: Epoch -> Epoch, database: Database)
      requires WellKeyed(database)
      ensures Valid()
      ensures this.epochAtSlot == epochAtSlot && this.nextEpoch == nextEpoch
      ensures schemas == database && writeLog == []
      ensures |writeSessions| == ParallelWriteSessions
      ensures forall i :: 0 <= i < |writeSessions| ==> writeSessions[i] == WriteSession(i)
    {
      var sessions: seq<WriteSession> := [];
      var i := 0;
      while i < ParallelWriteSessions
        invariant 0 <= i <= ParallelWriteSessions && |sessions| == i
        invariant forall j :: 0 <= j < i ==> sessions[j] == WriteSession(j)
      {
        sessions := sessions + [WriteSession(i)];
        i := i + 1;
      }
      assert sessions != [];
      this.epochAtSlot := epochAtSlot;
      this.nextEpoch := nextEpoch;
      writeSessions := sessions;
      schemas := database;
      writeLog := [];
    }

    /**
     * `session.execute_simple(statement)` for a statement of
     * `start_new_epoch_if_necessary`. A statement the database rejects
     * (`fault`) fails before anything else is checked; otherwise creating an
     * existing schema fails with `DUPLICATE_SCHEMA`.
     */
    method ExecuteSimple(name: string, statement: Statement, fault: Option<Statement>) returns (res: SqlResult)
      requires Valid() && (statement != CreateSchema ==> name in schemas)
      modifies this`schemas
      ensures Valid()
      ensures fault == Some(statement) ==> res == SqlError(OtherSqlState) && schemas == old(schemas)
      ensures fault != Some(statement) && statement == CreateSchema && name in old(schemas) ==>
        res == SqlError(DuplicateSchema) && schemas == old(schemas)
      ensures fault != Some(statement) && (statement != CreateSchema || name !in old(schemas)) ==>
        res == Done && schemas == ApplyStatement(old(schemas), name, statement)
    {
      if fault == Some(statement) {
        return SqlError(OtherSqlState);
      }
      if statement == CreateSchema && name in schemas {
        return SqlError(DuplicateSchema);
      }
      ApplyStatementKeepsKeys(schemas, name, statement);
      schemas := ApplyStatement(schemas, name, statement);
      return Done;
    }

    /** `start_new_epoch_if_necessary(epoch)`: `Ok(true)` if the schema was created. */
    method StartNewEpochIfNecessary(epoch: Epoch, fault: Option<Statement>) returns (r: Outcome<bool>)
      requires Valid()
      modifies this`schemas
      ensures Valid()
      ensures Provisioning(r, schemas) == StartNewEpoch(old(schemas), epoch, fault)
    {
      var name := SchemaName(epoch);
      ghost var db := schemas;
      var res := ExecuteSimple(name, CreateSchema, fault);
      if res.SqlError? {
        if res.code == DuplicateSchema {
          return Ok(false);
        } else {
          return Err(StatementFailed(CreateSchema, epoch));
        }
      }
      assert schemas == db[name := Partition(false, false, false, false, map[], [])];
      res := ExecuteSimple(name, AssignPermissions, fault);
      if res.SqlError? {
        assert StartNewEpoch(db, epoch, fault) == Provisioning(Err(StatementFailed(AssignPermissions, epoch)), db[name := Partition(false, false, false, false, map[], [])]);
        return Err(StatementFailed(AssignPermissions, epoch));
      }
      Overwrite(db, name, Partition(false, false, false, false, map[], []), Partition(true, false, false, false, map[], []));
      res := ExecuteSimple(name, CreateBlocksTable, fault);
      if res.SqlError? {
        assert StartNewEpoch(db, epoch, fault) == Provisioning(Err(StatementFailed(CreateBlocksTable, epoch)), db[name := Partition(true, false, false, false, map[], [])]);
        return Err(StatementFailed(CreateBlocksTable, epoch));
      }
      Overwrite(db, name, Partition(true, false, false, false, map[], []), Partition(true, true, false, false, map[], []));
      res := ExecuteSimple(name, CreateTransactionsTable, fault);
      if res.SqlError? {
        assert StartNewEpoch(db, epoch, fault) == Provisioning(Err(StatementFailed(CreateTransactionsTable, epoch)), db[name := Partition(true, true, false, false, map[], [])]);
        return Err(StatementFailed(CreateTransactionsTable, epoch));
      }
      Overwrite(db, name, Partition(true, true, false, false, map[], []), Partition(true, true, true, false, map[], []));
      res := ExecuteSimple(name, AddForeignKey, fault);
      if res.SqlError? {
        assert StartNewEpoch(db, epoch, fault) == Provisioning(Err(StatementFailed(AddForeignKey, epoch)), db[name := Partition(true, true, true, false, map[], [])]);
        return Err(StatementFailed(AddForeignKey, epoch));
      }
      Overwrite(db, name, Partition(true, true, true, false, map[], []), Partition(true, true, true, true, map[], []));
      assert StartNewEpoch(db, epoch, fault) == Provisioning(Ok(true), db[name := Partition(true, true, true, true, map[], [])]);
      return Ok(true);
    }

    /** `prepare_epoch_schema(slot)`: the current and the next epoch. */
    method PrepareEpochSchema(slot: Slot, faultCurrent: Option<Statement>, faultNext: Option<Statement>)
      returns (r: Outcome<bool>)
      requires Valid()
      modifies this`schemas
      ensures Valid()
      ensures var current := epochAtSlot(slot);
        Provisioning(r, schemas) == PrepareEpochSchemas(old(schemas), current, nextEpoch(current), faultCurrent, faultNext)
    {
      var currentEpoch := epochAtSlot(slot);
      var createdCurrent := StartNewEpochIfNecessary(currentEpoch, faultCurrent);
      if !createdCurrent.Ok? {
        return createdCurrent;
      }
      var next := nextEpoch(currentEpoch);
      var createdNext := StartNewEpochIfNecessary(next, faultNext);
      if !createdNext.Ok? {
        return createdNext;
      }
      return Ok(createdCurrent.value || createdNext.value);
    }

    /**
     * `PostgresBlock::save` on write session 0: an insert that reports
     * whether the row was new.
     */
    method SaveBlockRow(epoch: Epoch, row: PostgresBlock, fault: bool) returns (r: Outcome<bool>)
      requires Valid()
      modifies this`schemas, this`writeLog
      ensures Valid()
      ensures writeLog == old(writeLog) + [SaveBlock(0, epoch, row.slot)]
      ensures var name := SchemaName(epoch);
        if name !in old(schemas) || !old(schemas)[name].hasBlocksTable || fault then
          r == Err(SaveBlockFailed(row.slot, epoch)) && schemas == old(schemas)
        else if row.slot in old(schemas)[name].blocks then
          r == Ok(false) && schemas == old(schemas)
        else
          r == Ok(true) && schemas == InsertBlock(old(schemas), name, row)
    {
      writeLog := writeLog + [SaveBlock(0, epoch, row.slot)];
      var name := SchemaName(epoch);
      if name !in schemas || !schemas[name].hasBlocksTable || fault {
        return Err(SaveBlockFailed(row.slot, epoch));
      }
      if row.slot in schemas[name].blocks {
        return Ok(false);
      }
      schemas := InsertBlock(schemas, name, row);
      return Ok(true);
    }

    /** `PostgresTransaction::save_transaction_copyin` of one chunk on write session `session`. */
    method SaveTransactionCopyIn(session: nat, epoch: Epoch, rows: seq<PostgresTransaction>, fault: bool)
      returns (ok: bool)
      requires Valid() && SchemaName(epoch) in schemas
      modifies this`schemas, this`writeLog
      ensures Valid()
      ensures writeLog == old(writeLog) + [CopyInTransactions(session, epoch, rows)]
      ensures var name := SchemaName(epoch); var p := old(schemas)[name];
        (ok <==> p.hasTransactionsTable && !fault)
        && schemas == if ok then AppendRows(old(schemas), name, rows) else old(schemas)
    {
      writeLog := writeLog + [CopyInTransactions(session, epoch, rows)];
      var name := SchemaName(epoch);
      ok := schemas[name].hasTransactionsTable && !fault;
      if ok {
        schemas := schemas[name := schemas[name].(transactions := schemas[name].transactions + rows)];
      }
    }

    /** Chunk `i` of the loop of `CopyInChunks`, on write session `i`. */
    method CopyInChunk(epoch: Epoch, chunks: seq<seq<PostgresTransaction>>, i: nat, chunkFaults: set<nat>,
                       ghost saved: Database, ghost logged: seq<WriteOp>, ghost hasTable: bool)
      returns (ok: bool)
      requires i < |chunks| && SchemaName(epoch) in saved
      requires Valid() && SchemaName(epoch) in schemas && schemas[SchemaName(epoch)].hasTransactionsTable == hasTable
      requires writeLog == logged + CopyIns(chunks[..i], epoch)
      requires schemas == AppendRows(saved, SchemaName(epoch), Committed(chunks[..i], chunkFaults, hasTable))
      modifies this`schemas, this`writeLog
      ensures Valid() && SchemaName(epoch) in schemas && schemas[SchemaName(epoch)].hasTransactionsTable == hasTable
      ensures ok == !ChunkFails(i, chunkFaults, hasTable)
      ensures writeLog == logged + CopyIns(chunks[..i + 1], epoch)
      ensures schemas == AppendRows(saved, SchemaName(epoch), Committed(chunks[..i + 1], chunkFaults, hasTable))
    {
      var name := SchemaName(epoch);
      ghost var before := Committed(chunks[..i], chunkFaults, hasTable);
      ok := SaveTransactionCopyIn(i, epoch, chunks[i], i in chunkFaults);
      CommittedStep(chunks, i, chunkFaults, hasTable);
      CopyInsStep(chunks, i, epoch);
      AppendRowsTwice(saved, name, before, chunks[i]);
      assert before + [] == before;
    }

    /**
     * The loop of `write_block` that binds chunk `i` to write session `i`
     * and copies it in; the results are those `join_all` collects.
     */
    method CopyInChunks(epoch: Epoch, chunks: seq<seq<PostgresTransaction>>, chunkFaults: set<nat>)
      returns (results: seq<bool>)
      requires Valid() && SchemaName(epoch) in schemas
      modifies this`schemas, this`writeLog
      ensures Valid()
      ensures writeLog == old(writeLog) + CopyIns(chunks, epoch)
      ensures var name := SchemaName(epoch);
        schemas == AppendRows(old(schemas), name, Committed(chunks, chunkFaults, old(schemas)[name].hasTransactionsTable))
      ensures var p := old(schemas)[SchemaName(epoch)];
        |results| == |chunks| && forall j :: 0 <= j < |chunks| ==> results[j] == !ChunkFails(j, chunkFaults, p.hasTransactionsTable)
    {
      var name := SchemaName(epoch);
      ghost var saved := schemas;
      ghost var logged := writeLog;
      ghost var hasTable := schemas[name].hasTransactionsTable;
      results := [];
      var i := 0;
      AppendNoRows(saved, name);
      while i < |chunks|
        invariant 0 <= i <= |chunks| && |results| == i
        invariant name in schemas && Valid() && schemas[name].hasTransactionsTable == hasTable
        invariant writeLog == logged + CopyIns(chunks[..i], epoch)
        invariant schemas == AppendRows(saved, name, Committed(chunks[..i], chunkFaults, hasTable))
        invariant results == ChunkResults(i, chunkFaults, hasTable)
      {
        var ok := CopyInChunk(epoch, chunks, i, chunkFaults, saved, logged, hasTable);
        ChunkResultsStep(i, chunkFaults, hasTable);
        results := results + [ok];
        i := i + 1;
      }
      assert chunks[..i] == chunks;
    }

    /**
     * `write_block(block)`: save the block row, skip a block already
     * stored, then copy the transactions in at most one chunk per write
     * session. `saveFault` makes the block insert fail, `chunkFaults` names
     * the chunks whose copy-in the database rejects.
     */
    method WriteBlock(block: ProducedBlock, saveFault: bool, chunkFaults: set<nat>) returns (r: Outcome<()>)
      requires Valid()
      modifies this`schemas, this`writeLog
      ensures Valid()
      ensures var epoch := epochAtSlot(block.slot);
        var name := SchemaName(epoch);
        if name !in old(schemas) || !old(schemas)[name].hasBlocksTable || saveFault then
          r == Err(SaveBlockFailed(block.slot, epoch))
          && schemas == old(schemas) && writeLog == old(writeLog) + [SaveBlock(0, epoch, block.slot)]
        else if block.slot in old(schemas)[name].blocks then
          r == Ok(()) && schemas == old(schemas) && writeLog == old(writeLog) + [SaveBlock(0, epoch, block.slot)]
        else
          var p := old(schemas)[name];
          var rows := TransactionRows(block);
          var chunks := Chunks(rows, ChunkSize(|rows|, |writeSessions|));
          |chunks| <= |writeSessions|
          && writeLog == old(writeLog) + [SaveBlock(0, epoch, block.slot)] + CopyIns(chunks, epoch)
          && schemas == AppendRows(InsertBlock(old(schemas), name, BlockRow(block)), name,
                                   Committed(chunks, chunkFaults, p.hasTransactionsTable))
          && (r == Ok(()) <==> forall i :: 0 <= i < |chunks| ==> !ChunkFails(i, chunkFaults, p.hasTransactionsTable))
          && (r != Ok(()) ==> r.Abort?)
          && (r == Ok(()) ==> schemas[name].transactions == p.transactions + rows)
    {
      var epoch := epochAtSlot(block.slot);
      var name := SchemaName(epoch);
      var rows := TransactionRows(block);
      var inserted := SaveBlockRow(epoch, BlockRow(block), saveFault);
      if inserted.Err? {
        return Err(inserted.error);
      }
      if !inserted.value {
        return Ok(());
      }
      var chunkSize := ChunkSize(|rows|, |writeSessions|);
      var chunks := Chunks(rows, chunkSize);
      ChunksFitSessions(rows, |writeSessions|);
      assert |chunks| <= |writeSessions|;
      var results := CopyInChunks(epoch, chunks, chunkFaults);
      var allOk := UnwrapAll(results);
      if !allOk {
        return Abort("copy-in of a transaction chunk failed");
      }
      return Ok(());
    }

    /**
     * `query(slot)`: the stored block row of `slot` in its epoch's schema,
     * without its transactions and with commitment "confirmed".
     */
    function Query(slot: Slot): (r: Outcome<ProducedBlock>)
      requires Valid()
      reads this
      ensures var epoch := epochAtSlot(slot); var name := SchemaName(epoch);
        && (r.Abort? <==> name !in schemas || !schemas[name].hasBlocksTable)
        && (r.Err? <==> name in schemas && schemas[name].hasBlocksTable && slot !in schemas[name].blocks)
        && (r.Err? ==> r.error == BlockNotFound(slot, epoch))
        && (r.Ok? ==> r.value.slot == slot && BlockRow(r.value) == schemas[name].blocks[slot]
                      && r.value.transactions == [] && r.value.commitment == Confirmed)
    {
      var epoch := epochAtSlot(slot);
      var name := SchemaName(epoch);
      if name !in schemas || !schemas[name].hasBlocksTable then Abort("query of the blocks table failed")
      else if slot !in schemas[name].blocks then Err(BlockNotFound(slot, epoch))
      else Ok(IntoProducedBlock(schemas[name].blocks[slot], [], Confirmed))
    }

    /**
     * `get_slot_range_by_epoch()`: for every epoch with stored blocks, the
     * range from its lowest to its highest stored slot.
     */
    ghost function GetSlotRangeByEpoch(): (r: Outcome<map<Epoch, SlotRange>>)
      reads this
      ensures !r.Err?
      ensures r.Abort? <==> exists n :: n in EpochSchemaNames(schemas) && !schemas[n].hasBlocksTable
      ensures EpochSchemaNames(schemas) == {} ==> r == Ok(map[])
      ensures r.Ok? ==> forall e :: e in r.value <==> SlotsOfEpoch(schemas, e) != {}
      ensures r.Ok? ==> forall e :: e in r.value ==> IsEnvelope(r.value[e], SlotsOfEpoch(schemas, e))
    {
      if EpochSchemaNames(schemas) == {} then Ok(map[])
      else if exists n :: n in EpochSchemaNames(schemas) && !schemas[n].hasBlocksTable then
        Abort("union of the epoch blocks tables failed")
      else
        var grouped := GroupedRanges(schemas);
        if grouped == map[] then Ok(map[])
        else
          // the fold's `assert!` that each epoch appears once holds
          CollectEntries(grouped);
          Ok(CollectUnique(Entries(grouped)).value)
    }

    /** `get_slot_range()`: the range from the lowest to the highest slot stored in any epoch. */
    ghost function GetSlotRange(): (r: Outcome<SlotRange>)
      reads this
      ensures !r.Err?
      ensures r.Abort? <==> GetSlotRangeByEpoch().Abort? || AllSlots(schemas) == {}
      ensures r.Ok? ==> IsEnvelope(r.value, AllSlots(schemas))
    {
      match GetSlotRangeByEpoch()
      case Ok(ranges) =>
        if ranges == map[] then
          SlotsOfEpochCoverAll(schemas, ranges);
          Abort("no blocks stored in any epoch")
        else
          SlotsOfEpochCoverAll(schemas, ranges);
          var global := GlobalRange(ranges);
          EnvelopeOfRanges(schemas, ranges, global);
          Ok(global)
      case Abort(reason) => Abort(reason)
    }

    /**
     * `is_block_in_range(slot)` as written: `true` whenever the slot's epoch
     * has any stored block, whether or not the slot lies in its range.
     */
    ghost function IsBlockInRange(slot: Slot): (r: Outcome<bool>)
      reads this
      ensures !r.Err?
      ensures r.Abort? <==> GetSlotRangeByEpoch().Abort?
      ensures r.Ok? ==> (r.value <==> SlotsOfEpoch(schemas, epochAtSlot(slot)) != {})
    {
      match GetSlotRangeByEpoch()
      case Ok(ranges) => Ok(InRangeAsWritten(ranges, epochAtSlot(slot), slot))
      case Abort(reason) => Abort(reason)
    }

    /** The evidently intended `is_block_in_range`: the slot lies inside its epoch's stored range. */
    ghost function IsSlotCovered(slot: Slot): (r: Outcome<bool>)
      reads this
      ensures !r.Err?
      ensures r.Abort? <==> GetSlotRangeByEpoch().Abort?
      ensures r.Ok? ==> (r.value <==> exists lo, hi :: lo in SlotsOfEpoch(schemas, epochAtSlot(slot))
                                          && hi in SlotsOfEpoch(schemas, epochAtSlot(slot)) && lo <= slot <= hi)
      ensures r == Ok(true) ==> IsBlockInRange(slot) == Ok(true)
    {
      match GetSlotRangeByEpoch()
      case Ok(ranges) =>
        var epoch := epochAtSlot(slot);
        if epoch in ranges then
          CoveredIffBetweenStored(SlotsOfEpoch(schemas, epoch), ranges[epoch], slot);
          Ok(InRange(ranges, epoch, slot))
        else
          Ok(InRange(ranges, epoch, slot))
      case Abort(reason) => Abort(reason)
    }

    /**
     * Writing a new block twice into a ready epoch schema: the second write
     * issues only the block insert, changes nothing and succeeds, and the
     * block reads back without its transactions.
     */
    method WriteBlockTwice(block: ProducedBlock, chunkFaults: set<nat>)
      returns (first: Outcome<()>, second: Outcome<()>, ghost afterFirst: Database, ghost logAfterFirst: seq<WriteOp>)
      requires Valid()
      requires var name := SchemaName(epochAtSlot(block.slot));
        name in schemas && schemas[name].hasBlocksTable && block.slot !in schemas[name].blocks
      modifies this`schemas, this`writeLog
      ensures Valid()
      ensures !first.Err? && second == Ok(())
      ensures var epoch := epochAtSlot(block.slot);
        var name := SchemaName(epoch);
        var rows := TransactionRows(block);
        var chunks := Chunks(rows, ChunkSize(|rows|, |writeSessions|));
        logAfterFirst == old(writeLog) + [SaveBlock(0, epoch, block.slot)] + CopyIns(chunks, epoch)
        && afterFirst == AppendRows(InsertBlock(old(schemas), name, BlockRow(block)), name,
                                    Committed(chunks, chunkFaults, old(schemas)[name].hasTransactionsTable))
      ensures schemas == afterFirst
      ensures writeLog == logAfterFirst + [SaveBlock(0, epochAtSlot(block.slot), block.slot)]
      ensures Query(block.slot) == Ok(block.(transactions := [], commitment := Confirmed))
    {
      first := WriteBlock(block, false, chunkFaults);
      afterFirst, logAfterFirst := schemas, writeLog;
      second := WriteBlock(block, false, chunkFaults);
      ReadBackDropsTransactions(block);
    }

    /** `optimize_blocks_table(slot)`: `ANALYZE` of the slot's epoch blocks table on a rotating session. */
    method OptimizeBlocksTable(slot: Slot) returns (r: Outcome<()>)
      requires Valid()
      modifies this`writeLog
      ensures r == Ok(())
      ensures var session := AnalyzeSession(slot, |writeSessions|);
        session < |writeSessions|
        && writeLog == old(writeLog) + [AnalyzeBlocks(session, SchemaName(epochAtSlot(slot)))]
    {
      var epoch := epochAtSlot(slot);
      var session := AnalyzeSession(slot, |writeSessions|);
      writeLog := writeLog + [AnalyzeBlocks(session, SchemaName(epoch))];
      return Ok(());
    }
  }

  /** `result.unwrap()` on each result in turn: `false` at the first failed one. */
  method UnwrapAll(results: seq<bool>) returns (allOk: bool)
    ensures allOk <==> forall j :: 0 <= j < |results| ==> results[j]
  {
    var k := 0;
    while k < |results|
      invariant 0 <= k <= |results|
      invariant forall j :: 0 <= j < k ==> results[j]
    {
      if !results[k] {
        return false;
      }
      k := k + 1;
    }
    return true;
  }

  /** Every stored slot of an epoch schema lies in the group of its parsed epoch. */
  lemma SlotsOfEpochCoverAll(db: Database, ranges: map<Epoch, SlotRange>)
    requires forall e :: e in ranges <==> SlotsOfEpoch(db, e) != {}
    ensures ranges == map[] <==> AllSlots(db) == {}
    ensures forall s :: s in AllSlots(db) ==> exists e :: e in ranges && s in SlotsOfEpoch(db, e)
    ensures forall e, s :: e in ranges && s in SlotsOfEpoch(db, e) ==> s in AllSlots(db)
  {
    forall s | s in AllSlots(db)
      ensures exists e :: e in ranges && s in SlotsOfEpoch(db, e)
    {
      var n :| n in db && IsEpochSchemaName(n) && s in db[n].blocks;
      assert s in SlotsOfEpoch(db, ParseEpoch(n));
    }
    if ranges != map[] {
      var e :| e in ranges;
      var s :| s in SlotsOfEpoch(db, e);
      var n :| n in db && IsEpochSchemaName(n) && s in db[n].blocks && ParseEpoch(n) == e;
      assert s in AllSlots(db);
    }
  }

  /** The global range of per-epoch envelopes is the envelope of all stored slots. */
  lemma EnvelopeOfRanges(db: Database, ranges: map<Epoch, SlotRange>, global: SlotRange)
    requires ranges != map[]
    requires forall e :: e in ranges ==> IsEnvelope(ranges[e], SlotsOfEpoch(db, e))
    requires forall s :: s in AllSlots(db) ==> exists e :: e in ranges && s in SlotsOfEpoch(db, e)
    requires forall e, s :: e in ranges && s in SlotsOfEpoch(db, e) ==> s in AllSlots(db)
    requires forall e :: e in ranges ==> global.start <= ranges[e].start && ranges[e].end <= global.end
    requires exists e :: e in ranges && ranges[e].start == global.start
    requires exists e :: e in ranges && ranges[e].end == global.end
    ensures IsEnvelope(global, AllSlots(db))
  {
    var e1 :| e1 in ranges && ranges[e1].start == global.start;
    var e2 :| e2 in ranges && ranges[e2].end == global.end;
    assert global.start in SlotsOfEpoch(db, e1);
    assert global.end in SlotsOfEpoch(db, e2);
    forall s | s in AllSlots(db)
      ensures Contains(global, s)
    {
      var e :| e in ranges && s in SlotsOfEpoch(db, e);
      assert Contains(ranges[e], s);
    }
  }

  /** A slot lies inside the envelope of a set exactly when it lies between two members. */
  lemma CoveredIffBetweenStored(slots: set<Slot>, r: SlotRange, slot: Slot)
    requires IsEnvelope(r, slots)
    ensures Contains(r, slot) <==> exists lo, hi :: lo in slots && hi in slots && lo <= slot <= hi
  {
    if Contains(r, slot) {
      assert r.start in slots && r.end in slots && r.start <= slot <= r.end;
    }
    if exists lo, hi :: lo in slots && hi in slots && lo <= slot <= hi {
      var lo, hi :| lo in slots && hi in slots && lo <= slot <= hi;
      assert Contains(r, lo) && Contains(r, hi);
    }
  }
}
