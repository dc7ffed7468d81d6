/**
 * `TxSender` of src/workers/tx_sender.rs: the registry of forwarded
 * signatures, `forward_txs` and the batching loop of `execute`. The TPU send
 * is an outcome parameter, the Postgres channel a sink object that records
 * what is sent to it, and `Instant::now()` a reading of the clock.
 */
module TxSender {
  import opened Wrappers
  import opened Batching

  /** `solana_transaction_status::TransactionStatus`, a placeholder: no modelled code reads its fields. */
  datatype TransactionStatus = TransactionStatus

  /** `TxProps`: the status of a forwarded transaction and when it was forwarded. */
  datatype TxProps = TxProps(status: Option<TransactionStatus>, sentAt: nat)

  /** `TxProps::default()` at clock reading `now`: no status yet. */
  function DefaultTxProps(now: nat): (p: TxProps)
    ensures p.status.None? && p.sentAt == now
  {
    TxProps(None, now)
  }

  /** `PostgresTx`: the record sent to the Postgres service for one transaction. */
  datatype PostgresTx = PostgresTx(
    signature: Signature,
    recentSlot: int,
    forwardedSlot: int,
    processedSlot: Option<int>,
    cuConsumed: Option<int>,
    cuRequested: Option<int>,
    quicResponse: int)

  datatype PostgresMsg = PostgresTxMsg(tx: PostgresTx)

  const TwoTo63: int := 0x8000_0000_0000_0000
  const TwoTo64: int := 0x1_0000_0000_0000_0000

  /** `x as i64` for a `u64`: the same bits read as two's complement. */
  function AsI64(x: u64): (y: int)
    ensures -TwoTo63 <= y < TwoTo63
    ensures (y == x as int) <==> x as int < TwoTo63
    ensures (y + TwoTo64) % TwoTo64 == x as int
  {
    if (x as int) < TwoTo63 then x as int else x as int - TwoTo64
  }

  /** `quic_response`: 1 when the batch was sent, 0 otherwise. */
  function QuicResponse(sent: bool): (q: int)
    ensures q == 1 || q == 0
    ensures q == 1 <==> sent
  {
    if sent then 1 else 0
  }

  /** The record for one `(signature, recent_slot)` entry. */
  function Record(entry: (Signature, u64), quic: int): PostgresMsg
  {
    PostgresTxMsg(PostgresTx(entry.0, AsI64(entry.1), 0, None, None, None, quic))
  }

  /** The records of one batch, in batch order. */
  function Records(sigsAndSlots: seq<(Signature, u64)>, quic: int): (r: seq<PostgresMsg>)
    ensures |r| == |sigsAndSlots|
  {
    if sigsAndSlots == [] then []
    else
      var n := |sigsAndSlots| - 1;
      Records(sigsAndSlots[..n], quic) + [Record(sigsAndSlots[n], quic)]
  }

  /**
   * Record `i` carries entry `i`'s signature, its recent slot cast to `i64`,
   * forwarded slot 0, no processed slot or compute units, and the batch's
   * `quic_response`.
   */
  lemma {:induction false} RecordsCarryEntries(sigsAndSlots: seq<(Signature, u64)>, quic: int)
    ensures var r := Records(sigsAndSlots, quic);
      forall i :: 0 <= i < |r| ==>
        r[i].tx.signature == sigsAndSlots[i].0 && r[i].tx.recentSlot == AsI64(sigsAndSlots[i].1)
        && r[i].tx.forwardedSlot == 0 && r[i].tx.processedSlot.None?
        && r[i].tx.cuConsumed.None? && r[i].tx.cuRequested.None? && r[i].tx.quicResponse == quic
  {
    if sigsAndSlots != [] {
      var n := |sigsAndSlots| - 1;
      RecordsCarryEntries(sigsAndSlots[..n], quic);
    }
  }

  /** The signatures of a batch. */
  function Signatures(sigsAndSlots: seq<(Signature, u64)>): set<Signature>
  {
    set i | 0 <= i < |sigsAndSlots| :: sigsAndSlots[i].0
  }

  lemma SignaturesOfPrefix(sigsAndSlots: seq<(Signature, u64)>)
    requires sigsAndSlots != []
    ensures var n := |sigsAndSlots| - 1;
      Signatures(sigsAndSlots) == Signatures(sigsAndSlots[..n]) + {sigsAndSlots[n].0}
  {
    var n := |sigsAndSlots| - 1;
    var prefix := sigsAndSlots[..n];
    forall s | s in Signatures(sigsAndSlots)
      ensures s in Signatures(prefix) || s == sigsAndSlots[n].0
    {
      var i :| 0 <= i < |sigsAndSlots| && sigsAndSlots[i].0 == s;
      if i < n {
        assert prefix[i].0 == s;
      }
    }
    forall s | s in Signatures(prefix)
      ensures s in Signatures(sigsAndSlots)
    {
      var i :| 0 <= i < |prefix| && prefix[i].0 == s;
      assert sigsAndSlots[i].0 == s;
    }
    assert sigsAndSlots[n].0 in Signatures(sigsAndSlots);
  }

  /**
   * The registry after the insert loop of `forward_txs`: every signature of
   * the batch is registered with a fresh `TxProps`, overwriting an earlier
   * entry, every other entry is as it was, and nothing else is added.
   */
  function MarkSent(registry: map<Signature, TxProps>, sigsAndSlots: seq<(Signature, u64)>, now: nat)
    : (r: map<Signature, TxProps>)
    ensures forall s :: s in r <==> s in registry || s in Signatures(sigsAndSlots)
    ensures forall s :: s in Signatures(sigsAndSlots) ==> r[s] == DefaultTxProps(now)
    ensures forall s :: s in registry && s !in Signatures(sigsAndSlots) ==> r[s] == registry[s]
  {
    if sigsAndSlots == [] then registry
    else
      var n := |sigsAndSlots| - 1;
      SignaturesOfPrefix(sigsAndSlots);
      MarkSent(registry, sigsAndSlots[..n], now)[sigsAndSlots[n].0 := DefaultTxProps(now)]
  }

  /**
   * The registry after `forward_txs`: every signature of a non-empty batch
   * that was sent maps to a fresh `TxProps`; a failed send or an empty
   * batch changes nothing.
   */
  function ForwardRegistry(registry: map<Signature, TxProps>, sigsAndSlots: seq<(Signature, u64)>,
                           sent: bool, now: nat): (r: map<Signature, TxProps>)
    ensures !sent || sigsAndSlots == [] ==> r == registry
    ensures forall s :: s in r <==> s in registry || (sent && s in Signatures(sigsAndSlots))
    ensures sent ==> forall s :: s in Signatures(sigsAndSlots) ==> r[s].status.None? && r[s].sentAt == now
    ensures forall s :: s in registry && !(sent && s in Signatures(sigsAndSlots)) ==> r[s] == registry[s]
  {
    if sigsAndSlots == [] || !sent then registry else MarkSent(registry, sigsAndSlots, now)
  }

  /**
   * Forwarding a registered signature again replaces its entry by
   * `TxProps::default()`: a status recorded for it is dropped and its send
   * time becomes the new one.
   */
  lemma ResendResetsStatus(registry: map<Signature, TxProps>, sigsAndSlots: seq<(Signature, u64)>, now: nat, s: Signature)
    requires s in registry && registry[s].status.Some? && s in Signatures(sigsAndSlots)
    ensures var r := ForwardRegistry(registry, sigsAndSlots, true, now);
      s in r && r[s] == DefaultTxProps(now) && r[s] != registry[s]
  {
  }

  /** The records `forward_txs` emits when a sink is configured: one per entry, sent or not. */
  function SinkRecords(sigsAndSlots: seq<(Signature, u64)>, sent: bool): (r: seq<PostgresMsg>)
    ensures |r| == |sigsAndSlots|
    ensures forall i :: 0 <= i < |r| ==>
      r[i].tx.signature == sigsAndSlots[i].0 && r[i].tx.recentSlot == AsI64(sigsAndSlots[i].1)
      && r[i].tx.forwardedSlot == 0 && r[i].tx.processedSlot.None?
      && r[i].tx.cuConsumed.None? && r[i].tx.cuRequested.None?
      && (r[i].tx.quicResponse == 1 <==> sent) && (r[i].tx.quicResponse == 0 <==> !sent)
  {
    RecordsCarryEntries(sigsAndSlots, QuicResponse(sent));
    if sigsAndSlots == [] then [] else Records(sigsAndSlots, QuicResponse(sent))
  }

  /** The registry after forwarding `batches` in order, batch `k` with send outcome `sendOk(k)`. */
  function RegistryAfter(registry: map<Signature, TxProps>, batches: seq<Batch>, sendOk: nat -> bool)
    : map<Signature, TxProps>
  {
    if batches == [] then registry
    else
      var n := |batches| - 1;
      ForwardRegistry(RegistryAfter(registry, batches[..n], sendOk), batches[n].sigsAndSlots, sendOk(n), batches[n].closedAt)
  }

  /** The records sent to the sink while forwarding `batches`. */
  function RecordsAfter(batches: seq<Batch>, sendOk: nat -> bool): seq<PostgresMsg>
  {
    if batches == [] then []
    else
      var n := |batches| - 1;
      RecordsAfter(batches[..n], sendOk) + SinkRecords(batches[n].sigsAndSlots, sendOk(n))
  }

  lemma AppendAssociates(a: seq<PostgresMsg>, b: seq<PostgresMsg>, c: seq<PostgresMsg>)
    ensures a + b + c == a + (b + c)
  {
  }

  lemma ForwardAfterStep(registry: map<Signature, TxProps>, done: seq<Batch>, b: Batch, sendOk: nat -> bool)
    ensures RegistryAfter(registry, done + [b], sendOk)
         == ForwardRegistry(RegistryAfter(registry, done, sendOk), b.sigsAndSlots, sendOk(|done|), b.closedAt)
    ensures RecordsAfter(done + [b], sendOk) == RecordsAfter(done, sendOk) + SinkRecords(b.sigsAndSlots, sendOk(|done|))
  {
    assert (done + [b])[..|done|] == done;
  }

  /**
   * The sink receives one record per forwarded entry, in forwarding order,
   * carrying that entry's signature.
   */
  lemma {:induction false} RecordsFollowForwardedEntries(batches: seq<Batch>, sendOk: nat -> bool)
    ensures |RecordsAfter(batches, sendOk)| == |AllSigs(batches)|
    ensures forall i :: 0 <= i < |AllSigs(batches)| ==>
      RecordsAfter(batches, sendOk)[i].tx.signature == AllSigs(batches)[i].0
  {
    if batches != [] {
      var n := |batches| - 1;
      RecordsFollowForwardedEntries(batches[..n], sendOk);
      var before := RecordsAfter(batches[..n], sendOk);
      var last := SinkRecords(batches[n].sigsAndSlots, sendOk(n));
      RecordsCarryEntries(batches[n].sigsAndSlots, QuicResponse(sendOk(n)));
      assert RecordsAfter(batches, sendOk) == before + last;
      assert AllSigs(batches) == AllSigs(batches[..n]) + batches[n].sigsAndSlots;
      forall i | 0 <= i < |AllSigs(batches)|
        ensures RecordsAfter(batches, sendOk)[i].tx.signature == AllSigs(batches)[i].0
      {
        if i >= |before| {
          assert RecordsAfter(batches, sendOk)[i] == last[i - |before|];
        }
      }
    }
  }

  /**
   * After a batch was sent, each of its signatures stays registered with no
   * status, whatever is forwarded later: later sends only add entries or
   * reset them to `TxProps::default()`.
   */
  lemma {:induction false} SentSignaturesStayRegistered(registry: map<Signature, TxProps>, batches: seq<Batch>,
                                                        sendOk: nat -> bool, k: nat, s: Signature)
    requires k < |batches| && sendOk(k) && s in Signatures(batches[k].sigsAndSlots)
    ensures var r := RegistryAfter(registry, batches, sendOk);
      s in r && r[s].status.None?
  {
    var n := |batches| - 1;
    assert batches[..n + 1] == batches;
    var before := RegistryAfter(registry, batches[..n], sendOk);
    if k < n {
      assert batches[..n][k] == batches[k];
      SentSignaturesStayRegistered(registry, batches[..n], sendOk, k, s);
    } else {
      assert batches[n].sigsAndSlots != [];
    }
  }

  /**
   * The inner `while` of `execute`: poll while the cycle condition holds,
   * pushing received items pairwise. Stops early when the channel
   * disconnects or a stream runs out; otherwise returns at the first failing
   * check, whose clock reading is `clock[ci]`.
   */
  method PollCycle(rule: Rule, cfg: Config, clock: seq<nat>, polls: seq<Poll>,
                   ci0: nat, pi0: nat, prevInst: nat, ghost done: seq<Batch>)
    returns (ci: nat, pi: nat, sigsAndSlots: seq<(Signature, u64)>, txs: seq<WireTransaction>, stop: Option<Stop>)
    requires ci0 <= |clock| && pi0 <= |polls|
    ensures ci0 <= ci <= |clock| && pi0 <= pi <= |polls| && |sigsAndSlots| == |txs|
    ensures stop.Some? ==>
      RunFrom(rule, cfg, clock, polls, ci0, pi0, Some(Cycle(prevInst, [], [])), done)
        == RunResult(done, stop.value, Some(Cycle(prevInst, sigsAndSlots, txs)), pi)
    ensures stop.None? ==>
      ci < |clock| && !CycleOpen(rule, cfg, Elapsed(prevInst, clock[ci]), |txs|)
      && RunFrom(rule, cfg, clock, polls, ci0, pi0, Some(Cycle(prevInst, [], [])), done)
        == RunFrom(rule, cfg, clock, polls, ci, pi, Some(Cycle(prevInst, sigsAndSlots, txs)), done)
  {
    ci, pi := ci0, pi0;
    sigsAndSlots, txs := [], [];
    while ci < |clock| && CycleOpen(rule, cfg, Elapsed(prevInst, clock[ci]), |txs|)
      invariant ci0 <= ci <= |clock| && pi0 <= pi <= |polls| && |sigsAndSlots| == |txs|
      invariant RunFrom(rule, cfg, clock, polls, ci0, pi0, Some(Cycle(prevInst, [], [])), done)
             == RunFrom(rule, cfg, clock, polls, ci, pi, Some(Cycle(prevInst, sigsAndSlots, txs)), done)
      decreases |clock| - ci
    {
      if pi == |polls| {
        return ci, pi, sigsAndSlots, txs, Some(TraceEnded);
      }
      var p := polls[pi];
      match p {
        case Received(sig, tx, slot) =>
          sigsAndSlots := sigsAndSlots + [(sig, slot)];
          txs := txs + [tx];
        case Empty =>
        case Disconnected =>
          return ci, pi, sigsAndSlots, txs, Some(ChannelDisconnected);
      }
      ci, pi := ci + 1, pi + 1;
    }
    if ci == |clock| {
      return ci, pi, sigsAndSlots, txs, Some(TraceEnded);
    }
    return ci, pi, sigsAndSlots, txs, None;
  }

  /** The Postgres channel: the messages sent to it, in order. */
  class PostgresSink {
    var messages: seq<PostgresMsg>

    constructor ()
      ensures messages == []
    {
      messages := [];
    }

    method Send(m: PostgresMsg)
      modifies this
      ensures messages == old(messages) + [m]
    {
      messages := messages + [m];
    }
  }

  function SinkFrame(postgres: Option<PostgresSink>): set<object>
  {
    if postgres.Some? then {postgres.value} else {}
  }

  class TxSender {
    /** `txs_sent`: the transactions forwarded to the TPU. */
    var txsSent: map<Signature, TxProps>

    /** `TxSender::new`: an empty registry. */
    constructor ()
      ensures txsSent == map[]
    {
      txsSent := map[];
    }

    /**
     * `forward_txs(sigs_and_slots, txs, postgres)`, where `sent` is the
     * outcome of the TPU batch send and `now` the clock reading at which
     * `TxProps::default()` is taken.
     */
    method ForwardTxs(sigsAndSlots: seq<(Signature, u64)>, txs: seq<WireTransaction>,
                      postgres: Option<PostgresSink>, sent: bool, now: nat)
      requires |sigsAndSlots| == |txs|
      modifies this, SinkFrame(postgres)
      ensures txsSent == ForwardRegistry(old(txsSent), sigsAndSlots, sent, now)
      ensures postgres.Some? ==>
        postgres.value.messages == old(postgres.value.messages) + SinkRecords(sigsAndSlots, sent)
    {
      if sigsAndSlots == [] {
        return;
      }
      var quicResponse := 0;
      if sent {
        var i := 0;
        while i < |sigsAndSlots|
          invariant 0 <= i <= |sigsAndSlots|
          invariant txsSent == MarkSent(old(txsSent), sigsAndSlots[..i], now)
          modifies this
        {
          assert sigsAndSlots[..i + 1][..i] == sigsAndSlots[..i];
          txsSent := txsSent[sigsAndSlots[i].0 := DefaultTxProps(now)];
          i := i + 1;
        }
        assert sigsAndSlots[..i] == sigsAndSlots;
        quicResponse := 1;
      }
      if postgres.Some? {
        var sink := postgres.value;
        var i := 0;
        assert sigsAndSlots[..0] == [];
        while i < |sigsAndSlots|
          invariant 0 <= i <= |sigsAndSlots|
          invariant sink.messages == old(sink.messages) + Records(sigsAndSlots[..i], quicResponse)
          invariant txsSent == ForwardRegistry(old(txsSent), sigsAndSlots, sent, now)
        {
          assert sigsAndSlots[..i + 1][..i] == sigsAndSlots[..i];
          sink.Send(Record(sigsAndSlots[i], quicResponse));
          i := i + 1;
        }
        assert sigsAndSlots[..i] == sigsAndSlots;
      }
    }

    /**
     * One pass of the outer `loop` of `execute`: take `prev_inst`, poll the
     * cycle, and hand its batch to `forward_txs` as the `k`-th forward.
     */
    method RunCycle(rule: Rule, cfg: Config, clock: seq<nat>, polls: seq<Poll>, ci0: nat, pi0: nat,
                    postgres: Option<PostgresSink>, sendOk: nat -> bool, k: nat, ghost done: seq<Batch>)
      returns (ci: nat, pi: nat, stop: Option<Stop>, ghost b: Batch)
      requires ci0 < |clock| && pi0 <= |polls| && k == |done|
      modifies this, SinkFrame(postgres)
      ensures ci0 < ci <= |clock| && pi0 <= pi <= |polls|
      ensures stop.Some? ==>
        RunFrom(rule, cfg, clock, polls, ci0, pi0, None, done).batches == done
        && RunFrom(rule, cfg, clock, polls, ci0, pi0, None, done).stop == stop.value
        && txsSent == old(txsSent)
        && (postgres.Some? ==> postgres.value.messages == old(postgres.value.messages))
      ensures stop.None? ==>
        RunFrom(rule, cfg, clock, polls, ci0, pi0, None, done) == RunFrom(rule, cfg, clock, polls, ci, pi, None, done + [b])
        && txsSent == ForwardRegistry(old(txsSent), b.sigsAndSlots, sendOk(k), b.closedAt)
        && (postgres.Some? ==>
              postgres.value.messages == old(postgres.value.messages) + SinkRecords(b.sigsAndSlots, sendOk(k)))
    {
      // let prev_inst = Instant::now()
      var prevInst := clock[ci0];
      assert RunFrom(rule, cfg, clock, polls, ci0, pi0, None, done)
          == RunFrom(rule, cfg, clock, polls, ci0 + 1, pi0, Some(Cycle(prevInst, [], [])), done);
      var sigsAndSlots, txs;
      ci, pi, sigsAndSlots, txs, stop := PollCycle(rule, cfg, clock, polls, ci0 + 1, pi0, prevInst, done);
      b := Close(Cycle(prevInst, sigsAndSlots, txs), if ci < |clock| then clock[ci] else 0);
      if stop.Some? {
        return;
      }
      assert RunFrom(rule, cfg, clock, polls, ci, pi, Some(Cycle(prevInst, sigsAndSlots, txs)), done)
          == RunFrom(rule, cfg, clock, polls, ci + 1, pi, None, done + [b]);
      ForwardTxs(sigsAndSlots, txs, postgres, sendOk(k), clock[ci]);
      ci := ci + 1;
    }

    /**
     * `execute(recv, tx_batch_size, tx_send_interval, postgres_send)` over
     * the clock readings and poll results, with batch `k` sent with outcome
     * `sendOk(k)`. Returns why the loop stopped; a disconnected channel is the
     * `bail!` of the source.
     */
    method Execute(rule: Rule, cfg: Config, clock: seq<nat>, polls: seq<Poll>,
                   postgres: Option<PostgresSink>, sendOk: nat -> bool) returns (stop: Stop)
      modifies this, SinkFrame(postgres)
      ensures var r := Batching.Execute(rule, cfg, clock, polls);
        stop == r.stop
        && txsSent == RegistryAfter(old(txsSent), r.batches, sendOk)
        && (postgres.Some? ==> postgres.value.messages == old(postgres.value.messages) + RecordsAfter(r.batches, sendOk))
    {
      var ci: nat, pi: nat := 0, 0;
      ghost var done: seq<Batch> := [];
      var forwarded := 0;
      while ci < |clock|
        invariant ci <= |clock| && pi <= |polls| && forwarded == |done|
        invariant RunFrom(rule, cfg, clock, polls, ci, pi, None, done) == Batching.Execute(rule, cfg, clock, polls)
        invariant txsSent == RegistryAfter(old(txsSent), done, sendOk)
        invariant postgres.Some? ==> postgres.value.messages == old(postgres.value.messages) + RecordsAfter(done, sendOk)
        decreases |clock| - ci
      {
        var stopped;
        ghost var b;
        ci, pi, stopped, b := RunCycle(rule, cfg, clock, polls, ci, pi, postgres, sendOk, forwarded, done);
        if stopped.Some? {
          assert Batching.Execute(rule, cfg, clock, polls).batches == done;
          return stopped.value;
        }
        ForwardAfterStep(old(txsSent), done, b, sendOk);
        if postgres.Some? {
          AppendAssociates(old(postgres.value.messages), RecordsAfter(done, sendOk), SinkRecords(b.sigsAndSlots, sendOk(forwarded)));
        }
        done := done + [b];
        forwarded := forwarded + 1;
      }
      assert RunFrom(rule, cfg, clock, polls, ci, pi, None, done) == RunResult(done, TraceEnded, None, pi);
      return TraceEnded;
    }
  }
}
