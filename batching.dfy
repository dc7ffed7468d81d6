/**
 * The batching loop of `TxSender::execute` (src/workers/tx_sender.rs) as a
 * function of what it observes: the readings of the clock, one per
 * `Instant::now()` or `elapsed()`, and the results of `try_recv`, one per
 * poll. The run ends when the channel disconnects or either stream runs out.
 */
module Batching {
  import opened Wrappers

  newtype byte = x: int | 0 <= x < 0x100
  newtype u64 = x: int | 0 <= x < 0x1_0000_0000_0000_0000

  type Signature = string
  /** `WireTransaction`: a serialized transaction. */
  type WireTransaction = seq<byte>

  /** The result of one `recv.try_recv()`. */
  datatype Poll =
    | Received(signature: Signature, tx: WireTransaction, slot: u64)
    | Empty
    | Disconnected

  /** `tx_batch_size` and `tx_send_interval` (in clock units). */
  datatype Config = Config(batchSize: nat, interval: nat)

  /**
   * The condition that keeps a cycle polling: the code as written, and the
   * evidently intended "until the interval is over or the batch is full".
   */
  datatype Rule = AsWritten | Intended

  /** `prev_inst.elapsed()`: saturates at zero like `Instant::elapsed`. */
  function Elapsed(start: nat, now: nat): (d: nat)
    ensures now >= start ==> start + d == now
    ensures now < start ==> d == 0
  {
    if now >= start then now - start else 0
  }

  /**
   * With a clock that does not run backwards the time elapsed since a cycle
   * opened never shrinks: once the interval is over it stays over.
   */
  lemma ElapsedGrows(start: nat, a: nat, b: nat, interval: nat)
    requires a <= b
    ensures Elapsed(start, a) <= Elapsed(start, b)
    ensures Elapsed(start, a) >= interval ==> Elapsed(start, b) >= interval
    ensures Elapsed(start, start + a) == a
  {
  }

  /**
   * `prev_inst.elapsed() < tx_send_interval || txs.len() == tx_batch_size`,
   * or the intended rule. As written, a cycle holding exactly the batch size
   * never closes, and none closes within the interval; under the intended
   * rule none polls past the interval or at the batch size.
   */
  function CycleOpen(rule: Rule, cfg: Config, elapsed: nat, len: nat): (open: bool)
    ensures rule == AsWritten && len == cfg.batchSize ==> open
    ensures elapsed < cfg.interval && len < cfg.batchSize ==> open
    ensures rule == AsWritten && !open ==> elapsed >= cfg.interval && len != cfg.batchSize
    ensures rule == AsWritten && elapsed >= cfg.interval && len != cfg.batchSize ==> !open
    ensures rule == Intended && open ==> elapsed < cfg.interval
    ensures rule == Intended && len >= cfg.batchSize ==> !open
  {
    match rule
    case AsWritten => elapsed < cfg.interval || len == cfg.batchSize
    case Intended => elapsed < cfg.interval && len < cfg.batchSize
  }

  /** The vectors `sigs_and_slots` and `txs` of the open cycle, started at `openedAt`. */
  datatype Cycle = Cycle(openedAt: nat, sigsAndSlots: seq<(Signature, u64)>, txs: seq<WireTransaction>)

  /** A batch handed to `forward_txs`: the cycle's vectors and when the cycle closed. */
  datatype Batch = Batch(openedAt: nat, closedAt: nat, sigsAndSlots: seq<(Signature, u64)>, txs: seq<WireTransaction>)

  /** `sigs_and_slots.push((sig, slot)); txs.push(tx)`. */
  function Push(c: Cycle, p: Poll): Cycle
    requires p.Received?
  {
    c.(sigsAndSlots := c.sigsAndSlots + [(p.signature, p.slot)], txs := c.txs + [p.tx])
  }

  /** The batch a cycle hands to `forward_txs` when its loop condition fails at time `now`. */
  function Close(c: Cycle, now: nat): Batch
  {
    Batch(c.openedAt, now, c.sigsAndSlots, c.txs)
  }

  datatype Stop = ChannelDisconnected | TraceEnded

  /**
   * The forwarded batches, why the run stopped, the cycle that was open at
   * that point (never forwarded) and how many polls were consumed.
   */
  datatype RunResult = RunResult(batches: seq<Batch>, stop: Stop, pending: Option<Cycle>, pollsUsed: nat)

  /**
   * The loop from clock reading `ci` and poll `pi`, with `cur` the open
   * cycle (`None` at the top of the outer `loop`) and `done` the batches
   * forwarded so far.
   */
  function RunFrom(rule: Rule, cfg: Config, clock: seq<nat>, polls: seq<Poll>,
                   ci: nat, pi: nat, cur: Option<Cycle>, done: seq<Batch>): (r: RunResult)
    requires ci <= |clock| && pi <= |polls|
    ensures pi <= r.pollsUsed <= |polls|
    decreases |clock| - ci
  {
    if ci == |clock| then RunResult(done, TraceEnded, cur, pi)
    else match cur
      case None =>
        RunFrom(rule, cfg, clock, polls, ci + 1, pi, Some(Cycle(clock[ci], [], [])), done)
      case Some(c) =>
        if CycleOpen(rule, cfg, Elapsed(c.openedAt, clock[ci]), |c.txs|) then
          if pi == |polls| then RunResult(done, TraceEnded, cur, pi)
          else match polls[pi]
            case Received(_, _, _) =>
              RunFrom(rule, cfg, clock, polls, ci + 1, pi + 1, Some(Push(c, polls[pi])), done)
            case Empty =>
              RunFrom(rule, cfg, clock, polls, ci + 1, pi + 1, cur, done)
            case Disconnected =>
              RunResult(done, ChannelDisconnected, cur, pi)
        else
          RunFrom(rule, cfg, clock, polls, ci + 1, pi, None, done + [Close(c, clock[ci])])
  }

  /**
   * `execute` from its start. It stops at the first Disconnected poll (the
   * `bail!`), with the partial cycle still open: its items are never
   * forwarded.
   */
  function Execute(rule: Rule, cfg: Config, clock: seq<nat>, polls: seq<Poll>): (r: RunResult)
    ensures r.pollsUsed <= |polls|
    ensures forall j :: 0 <= j < r.pollsUsed ==> !polls[j].Disconnected?
    ensures r.stop == ChannelDisconnected ==>
      r.pollsUsed < |polls| && polls[r.pollsUsed].Disconnected? && r.pending.Some?
  {
    RunFromStopsAtDisconnect(rule, cfg, clock, polls, 0, 0, None, []);
    RunFrom(rule, cfg, clock, polls, 0, 0, None, [])
  }

  /** The `(signature, slot)` pairs of the received items, in arrival order. */
  function ReceivedSigs(polls: seq<Poll>): seq<(Signature, u64)>
  {
    if polls == [] then []
    else
      var last := polls[|polls| - 1];
      ReceivedSigs(polls[..|polls| - 1]) + (if last.Received? then [(last.signature, last.slot)] else [])
  }

  /** The transactions of the received items, in arrival order. */
  function ReceivedTxs(polls: seq<Poll>): seq<WireTransaction>
  {
    if polls == [] then []
    else
      var last := polls[|polls| - 1];
      ReceivedTxs(polls[..|polls| - 1]) + (if last.Received? then [last.tx] else [])
  }

  function AllSigs(batches: seq<Batch>): seq<(Signature, u64)>
  {
    if batches == [] then [] else AllSigs(batches[..|batches| - 1]) + batches[|batches| - 1].sigsAndSlots
  }

  function AllTxs(batches: seq<Batch>): seq<WireTransaction>
  {
    if batches == [] then [] else AllTxs(batches[..|batches| - 1]) + batches[|batches| - 1].txs
  }

  function PendingSigs(cur: Option<Cycle>): seq<(Signature, u64)>
  {
    if cur.Some? then cur.value.sigsAndSlots else []
  }

  function PendingTxs(cur: Option<Cycle>): seq<WireTransaction>
  {
    if cur.Some? then cur.value.txs else []
  }

  /** Every received item is in exactly one place: a forwarded batch or the open cycle, in arrival order. */
  ghost predicate Accounted(polls: seq<Poll>, pi: nat, cur: Option<Cycle>, done: seq<Batch>)
  {
    pi <= |polls|
    && AllSigs(done) + PendingSigs(cur) == ReceivedSigs(polls[..pi])
    && AllTxs(done) + PendingTxs(cur) == ReceivedTxs(polls[..pi])
  }

  lemma AccountedAfterOpen(polls: seq<Poll>, pi: nat, done: seq<Batch>, now: nat)
    requires pi <= |polls|
    requires Accounted(polls, pi, None, done)
    ensures Accounted(polls, pi, Some(Cycle(now, [], [])), done)
  {
    assert AllSigs(done) + [] == AllSigs(done);
    assert AllTxs(done) + [] == AllTxs(done);
  }

  lemma AccountedAfterReceive(polls: seq<Poll>, pi: nat, c: Cycle, done: seq<Batch>)
    requires pi < |polls| && polls[pi].Received?
    requires Accounted(polls, pi, Some(c), done)
    ensures Accounted(polls, pi + 1, Some(Push(c, polls[pi])), done)
  {
    var p := polls[pi];
    assert polls[..pi + 1][..pi] == polls[..pi];
    assert AllSigs(done) + PendingSigs(Some(Push(c, p))) == (AllSigs(done) + c.sigsAndSlots) + [(p.signature, p.slot)];
    assert AllTxs(done) + PendingTxs(Some(Push(c, p))) == (AllTxs(done) + c.txs) + [p.tx];
  }

  lemma AccountedAfterEmpty(polls: seq<Poll>, pi: nat, cur: Option<Cycle>, done: seq<Batch>)
    requires pi < |polls| && polls[pi].Empty?
    requires Accounted(polls, pi, cur, done)
    ensures Accounted(polls, pi + 1, cur, done)
  {
    var seen := polls[..pi + 1];
    assert seen[..|seen| - 1] == polls[..pi] && seen[|seen| - 1].Empty?;
    assert ReceivedSigs(seen) == ReceivedSigs(polls[..pi]) + [];
    assert ReceivedTxs(seen) == ReceivedTxs(polls[..pi]) + [];
  }

  lemma AccountedAfterClose(polls: seq<Poll>, pi: nat, c: Cycle, done: seq<Batch>, now: nat)
    requires pi <= |polls|
    requires Accounted(polls, pi, Some(c), done)
    ensures Accounted(polls, pi, None, done + [Close(c, now)])
  {
    var b := Close(c, now);
    assert (done + [b])[..|done|] == done;
    assert AllSigs(done + [b]) == AllSigs(done) + b.sigsAndSlots;
    assert AllTxs(done + [b]) == AllTxs(done) + b.txs;
  }

  /** The run ends when the clock readings are used up. */
  lemma RunFromEnds(rule: Rule, cfg: Config, clock: seq<nat>, polls: seq<Poll>,
                    ci: nat, pi: nat, cur: Option<Cycle>, done: seq<Batch>)
    requires ci == |clock| && pi <= |polls|
    ensures RunFrom(rule, cfg, clock, polls, ci, pi, cur, done) == RunResult(done, TraceEnded, cur, pi)
  {
  }

  /** At the top of the outer `loop` a fresh, empty cycle is opened. */
  lemma RunFromOpens(rule: Rule, cfg: Config, clock: seq<nat>, polls: seq<Poll>, ci: nat, pi: nat, done: seq<Batch>)
    requires ci < |clock| && pi <= |polls|
    ensures RunFrom(rule, cfg, clock, polls, ci, pi, None, done)
         == RunFrom(rule, cfg, clock, polls, ci + 1, pi, Some(Cycle(clock[ci], [], [])), done)
  {
  }

  /** One step of the inner `while` with cycle `c` open, case by case. */
  lemma RunFromPolls(rule: Rule, cfg: Config, clock: seq<nat>, polls: seq<Poll>,
                     ci: nat, pi: nat, c: Cycle, done: seq<Batch>)
    requires ci < |clock| && pi <= |polls|
    ensures var r := RunFrom(rule, cfg, clock, polls, ci, pi, Some(c), done);
      if !CycleOpen(rule, cfg, Elapsed(c.openedAt, clock[ci]), |c.txs|) then
        r == RunFrom(rule, cfg, clock, polls, ci + 1, pi, None, done + [Close(c, clock[ci])])
      else if pi == |polls| then
        r == RunResult(done, TraceEnded, Some(c), pi)
      else if polls[pi].Received? then
        r == RunFrom(rule, cfg, clock, polls, ci + 1, pi + 1, Some(Push(c, polls[pi])), done)
      else if polls[pi].Empty? then
        r == RunFrom(rule, cfg, clock, polls, ci + 1, pi + 1, Some(c), done)
      else
        r == RunResult(done, ChannelDisconnected, Some(c), pi)
  {
  }

  lemma {:induction false} RunFromAccounts(rule: Rule, cfg: Config, clock: seq<nat>, polls: seq<Poll>,
                                           ci: nat, pi: nat, cur: Option<Cycle>, done: seq<Batch>)
    requires ci <= |clock| && pi <= |polls|
    requires Accounted(polls, pi, cur, done)
    ensures var r := RunFrom(rule, cfg, clock, polls, ci, pi, cur, done);
      Accounted(polls, r.pollsUsed, r.pending, r.batches)
    decreases |clock| - ci, 1
  {
    if ci == |clock| {
      RunFromEnds(rule, cfg, clock, polls, ci, pi, cur, done);
    } else if cur.None? {
      NewCycleAccounts(rule, cfg, clock, polls, ci, pi, done);
    } else {
      OpenCycleAccounts(rule, cfg, clock, polls, ci, pi, cur.value, done);
    }
  }

  /** `RunFromAccounts` for the step that opens a cycle. */
  lemma {:induction false} NewCycleAccounts(rule: Rule, cfg: Config, clock: seq<nat>, polls: seq<Poll>,
                                            ci: nat, pi: nat, done: seq<Batch>)
    requires ci < |clock| && pi <= |polls|
    requires Accounted(polls, pi, None, done)
    ensures var r := RunFrom(rule, cfg, clock, polls, ci, pi, None, done);
      Accounted(polls, r.pollsUsed, r.pending, r.batches)
    decreases |clock| - ci, 0
  {
    RunFromOpens(rule, cfg, clock, polls, ci, pi, done);
    AccountedAfterOpen(polls, pi, done, clock[ci]);
    RunFromAccounts(rule, cfg, clock, polls, ci + 1, pi, Some(Cycle(clock[ci], [], [])), done);
  }

  /** `RunFromAccounts` for a step taken with a cycle open. */
  lemma {:induction false} OpenCycleAccounts(rule: Rule, cfg: Config, clock: seq<nat>, polls: seq<Poll>,
                                             ci: nat, pi: nat, c: Cycle, done: seq<Batch>)
    requires ci < |clock| && pi <= |polls|
    requires Accounted(polls, pi, Some(c), done)
    ensures var r := RunFrom(rule, cfg, clock, polls, ci, pi, Some(c), done);
      Accounted(polls, r.pollsUsed, r.pending, r.batches)
    decreases |clock| - ci, 0
  {
    RunFromPolls(rule, cfg, clock, polls, ci, pi, c, done);
    if !CycleOpen(rule, cfg, Elapsed(c.openedAt, clock[ci]), |c.txs|) {
      AccountedAfterClose(polls, pi, c, done, clock[ci]);
      RunFromAccounts(rule, cfg, clock, polls, ci + 1, pi, None, done + [Close(c, clock[ci])]);
    } else if pi < |polls| && polls[pi].Received? {
      AccountedAfterReceive(polls, pi, c, done);
      RunFromAccounts(rule, cfg, clock, polls, ci + 1, pi + 1, Some(Push(c, polls[pi])), done);
    } else if pi < |polls| && polls[pi].Empty? {
      AccountedAfterEmpty(polls, pi, Some(c), done);
      RunFromAccounts(rule, cfg, clock, polls, ci + 1, pi + 1, Some(c), done);
    }
  }

  /**
   * Every received item ends up, in arrival order, in a forwarded batch or
   * in the cycle still open when the run stopped; Empty polls add nothing.
   */
  lemma ExecuteAccountsForEveryItem(rule: Rule, cfg: Config, clock: seq<nat>, polls: seq<Poll>)
    ensures var r := Execute(rule, cfg, clock, polls);
      AllSigs(r.batches) + PendingSigs(r.pending) == ReceivedSigs(polls[..r.pollsUsed])
      && AllTxs(r.batches) + PendingTxs(r.pending) == ReceivedTxs(polls[..r.pollsUsed])
  {
    RunFromAccounts(rule, cfg, clock, polls, 0, 0, None, []);
  }

  /** `sigs_and_slots` and `txs` are pushed pairwise. */
  ghost predicate Paired(cur: Option<Cycle>, done: seq<Batch>)
  {
    (cur.Some? ==> |cur.value.sigsAndSlots| == |cur.value.txs|)
    && forall b :: b in done ==> |b.sigsAndSlots| == |b.txs|
  }

  lemma {:induction false} RunFromKeepsPaired(rule: Rule, cfg: Config, clock: seq<nat>, polls: seq<Poll>,
                                              ci: nat, pi: nat, cur: Option<Cycle>, done: seq<Batch>)
    requires ci <= |clock| && pi <= |polls|
    requires Paired(cur, done)
    ensures var r := RunFrom(rule, cfg, clock, polls, ci, pi, cur, done);
      Paired(r.pending, r.batches)
    decreases |clock| - ci
  {
    if ci == |clock| {
    } else if cur.None? {
      assert Paired(Some(Cycle(clock[ci], [], [])), done);
      RunFromKeepsPaired(rule, cfg, clock, polls, ci + 1, pi, Some(Cycle(clock[ci], [], [])), done);
      assert RunFrom(rule, cfg, clock, polls, ci, pi, cur, done)
          == RunFrom(rule, cfg, clock, polls, ci + 1, pi, Some(Cycle(clock[ci], [], [])), done);
    } else {
      var c := cur.value;
      if CycleOpen(rule, cfg, Elapsed(c.openedAt, clock[ci]), |c.txs|) {
        if pi < |polls| {
          match polls[pi]
          case Received(_, _, _) =>
            var c' := Push(c, polls[pi]);
            RunFromKeepsPaired(rule, cfg, clock, polls, ci + 1, pi + 1, Some(c'), done);
          case Empty =>
            RunFromKeepsPaired(rule, cfg, clock, polls, ci + 1, pi + 1, cur, done);
          case Disconnected =>
        }
      } else {
        var b := Close(c, clock[ci]);
        RunFromKeepsPaired(rule, cfg, clock, polls, ci + 1, pi, None, done + [b]);
      }
    }
  }

  /** Throughout the run, and in every forwarded batch, the two vectors have equal length. */
  lemma ExecuteKeepsVectorsPaired(rule: Rule, cfg: Config, clock: seq<nat>, polls: seq<Poll>)
    ensures var r := Execute(rule, cfg, clock, polls);
      Paired(r.pending, r.batches)
  {
    RunFromKeepsPaired(rule, cfg, clock, polls, 0, 0, None, []);
  }

  /** A batch was closed by a failing loop condition. */
  predicate ClosedWhenDue(rule: Rule, cfg: Config, b: Batch)
  {
    !CycleOpen(rule, cfg, Elapsed(b.openedAt, b.closedAt), |b.txs|)
  }

  lemma {:induction false} RunFromClosesWhenDue(rule: Rule, cfg: Config, clock: seq<nat>, polls: seq<Poll>,
                                                ci: nat, pi: nat, cur: Option<Cycle>, done: seq<Batch>)
    requires ci <= |clock| && pi <= |polls|
    requires forall b :: b in done ==> ClosedWhenDue(rule, cfg, b)
    ensures var r := RunFrom(rule, cfg, clock, polls, ci, pi, cur, done);
      forall b :: b in r.batches ==> ClosedWhenDue(rule, cfg, b)
    decreases |clock| - ci
  {
    if ci == |clock| {
    } else if cur.None? {
      RunFromClosesWhenDue(rule, cfg, clock, polls, ci + 1, pi, Some(Cycle(clock[ci], [], [])), done);
      assert RunFrom(rule, cfg, clock, polls, ci, pi, cur, done)
          == RunFrom(rule, cfg, clock, polls, ci + 1, pi, Some(Cycle(clock[ci], [], [])), done);
    } else {
      var c := cur.value;
      if CycleOpen(rule, cfg, Elapsed(c.openedAt, clock[ci]), |c.txs|) {
        if pi < |polls| {
          match polls[pi]
          case Received(_, _, _) =>
            var c' := Push(c, polls[pi]);
            RunFromClosesWhenDue(rule, cfg, clock, polls, ci + 1, pi + 1, Some(c'), done);
          case Empty =>
            RunFromClosesWhenDue(rule, cfg, clock, polls, ci + 1, pi + 1, cur, done);
          case Disconnected =>
        }
      } else {
        var b := Close(c, clock[ci]);
        RunFromClosesWhenDue(rule, cfg, clock, polls, ci + 1, pi, None, done + [b]);
      }
    }
  }

  /**
   * As written, a batch is forwarded only once the interval is over and its
   * length is not exactly the batch size.
   */
  lemma BatchesCloseOnlyWhenDue(cfg: Config, clock: seq<nat>, polls: seq<Poll>)
    ensures var r := Execute(AsWritten, cfg, clock, polls);
      forall b :: b in r.batches ==> Elapsed(b.openedAt, b.closedAt) >= cfg.interval && |b.txs| != cfg.batchSize
  {
    RunFromClosesWhenDue(AsWritten, cfg, clock, polls, 0, 0, None, []);
    var r := RunFrom(AsWritten, cfg, clock, polls, 0, 0, None, []);
    assert forall b :: b in r.batches ==> ClosedWhenDue(AsWritten, cfg, b);
  }

  lemma {:induction false} RunFromStopsAtDisconnect(rule: Rule, cfg: Config, clock: seq<nat>, polls: seq<Poll>,
                                                    ci: nat, pi: nat, cur: Option<Cycle>, done: seq<Batch>)
    requires ci <= |clock| && pi <= |polls|
    requires forall j :: 0 <= j < pi ==> !polls[j].Disconnected?
    ensures var r := RunFrom(rule, cfg, clock, polls, ci, pi, cur, done);
      (forall j :: 0 <= j < r.pollsUsed ==> !polls[j].Disconnected?)
      && (r.stop == ChannelDisconnected ==>
            r.pollsUsed < |polls| && polls[r.pollsUsed].Disconnected? && r.pending.Some?)
    decreases |clock| - ci
  {
    if ci == |clock| {
    } else if cur.None? {
      RunFromStopsAtDisconnect(rule, cfg, clock, polls, ci + 1, pi, Some(Cycle(clock[ci], [], [])), done);
      assert RunFrom(rule, cfg, clock, polls, ci, pi, cur, done)
          == RunFrom(rule, cfg, clock, polls, ci + 1, pi, Some(Cycle(clock[ci], [], [])), done);
    } else {
      var c := cur.value;
      if CycleOpen(rule, cfg, Elapsed(c.openedAt, clock[ci]), |c.txs|) {
        if pi < |polls| {
          match polls[pi]
          case Received(_, _, _) =>
            var c' := Push(c, polls[pi]);
            RunFromStopsAtDisconnect(rule, cfg, clock, polls, ci + 1, pi + 1, Some(c'), done);
          case Empty =>
            RunFromStopsAtDisconnect(rule, cfg, clock, polls, ci + 1, pi + 1, cur, done);
          case Disconnected =>
        }
      } else {
        var b := Close(c, clock[ci]);
        RunFromStopsAtDisconnect(rule, cfg, clock, polls, ci + 1, pi, None, done + [b]);
      }
    }
  }

  /** Batches already forwarded stay forwarded: `done` is a prefix of the result. */
  lemma {:induction false} DoneIsPrefix(rule: Rule, cfg: Config, clock: seq<nat>, polls: seq<Poll>,
                                        ci: nat, pi: nat, cur: Option<Cycle>, done: seq<Batch>)
    requires ci <= |clock| && pi <= |polls|
    ensures var r := RunFrom(rule, cfg, clock, polls, ci, pi, cur, done);
      |done| <= |r.batches| && r.batches[..|done|] == done
    decreases |clock| - ci
  {
    if ci == |clock| {
    } else if cur.None? {
      DoneIsPrefix(rule, cfg, clock, polls, ci + 1, pi, Some(Cycle(clock[ci], [], [])), done);
      assert RunFrom(rule, cfg, clock, polls, ci, pi, cur, done)
          == RunFrom(rule, cfg, clock, polls, ci + 1, pi, Some(Cycle(clock[ci], [], [])), done);
    } else {
      var c := cur.value;
      if CycleOpen(rule, cfg, Elapsed(c.openedAt, clock[ci]), |c.txs|) {
        if pi < |polls| {
          match polls[pi]
          case Received(_, _, _) =>
            var c' := Push(c, polls[pi]);
            DoneIsPrefix(rule, cfg, clock, polls, ci + 1, pi + 1, Some(c'), done);
          case Empty =>
            DoneIsPrefix(rule, cfg, clock, polls, ci + 1, pi + 1, cur, done);
          case Disconnected =>
        }
      } else {
        var b := Close(c, clock[ci]);
        DoneIsPrefix(rule, cfg, clock, polls, ci + 1, pi, None, done + [b]);
        var r := RunFrom(rule, cfg, clock, polls, ci + 1, pi, None, done + [b]);
        assert r.batches[..|done|] == r.batches[..|done| + 1][..|done|];
      }
    }
  }

  /**
   * As written, a cycle holding exactly `batch_size` items while the channel
   * stays idle is never forwarded, however much time passes: the condition
   * `len == batch_size` keeps it polling.
   */
  lemma {:induction false} FullBatchStarves(cfg: Config, clock: seq<nat>, polls: seq<Poll>,
                                            ci: nat, pi: nat, c: Cycle, done: seq<Batch>)
    requires ci <= |clock| && pi <= |polls|
    requires |c.txs| == cfg.batchSize
    requires forall j :: pi <= j < |polls| ==> polls[j] == Empty
    ensures var r := RunFrom(AsWritten, cfg, clock, polls, ci, pi, Some(c), done);
      r.batches == done && r.pending == Some(c) && r.stop == TraceEnded
    decreases |clock| - ci
  {
    if ci < |clock| && pi < |polls| {
      FullBatchStarves(cfg, clock, polls, ci + 1, pi + 1, c, done);
    }
  }

  /**
   * With batch size 1 and interval 10, one transaction followed by an idle
   * channel is still unforwarded at time 1000.
   */
  lemma FullBatchStarvesExample(sig: Signature, tx: WireTransaction)
    ensures var r := Execute(AsWritten, Config(1, 10), [0, 1, 1000], [Received(sig, tx, 7), Empty]);
      r.batches == [] && r.pending == Some(Cycle(0, [(sig, 7)], [tx]))
  {
    var clock: seq<nat> := [0, 1, 1000];
    var polls := [Received(sig, tx, 7), Empty];
    var c := Cycle(0, [(sig, 7)], [tx]);
    FullBatchStarves(Config(1, 10), clock, polls, 2, 1, c, []);
    assert Push(Cycle(0, [], []), polls[0]) == c;
    assert RunFrom(AsWritten, Config(1, 10), clock, polls, 1, 0, Some(Cycle(0, [], [])), [])
        == RunFrom(AsWritten, Config(1, 10), clock, polls, 2, 1, Some(c), []);
  }

  /** Under the intended rule, a cycle that reached the batch size closes at the next check. */
  lemma IntendedFlushesFullBatch(cfg: Config, clock: seq<nat>, polls: seq<Poll>,
                                 ci: nat, pi: nat, c: Cycle, done: seq<Batch>)
    requires ci < |clock| && pi <= |polls|
    requires |c.txs| >= cfg.batchSize
    ensures var r := RunFrom(Intended, cfg, clock, polls, ci, pi, Some(c), done);
      |done| < |r.batches| && r.batches[|done|] == Batch(c.openedAt, clock[ci], c.sigsAndSlots, c.txs)
  {
    var b := Close(c, clock[ci]);
    DoneIsPrefix(Intended, cfg, clock, polls, ci + 1, pi, None, done + [b]);
    var r := RunFrom(Intended, cfg, clock, polls, ci + 1, pi, None, done + [b]);
    assert r.batches[..|done| + 1][|done|] == b;
  }

  /**
   * As written, a cycle whose interval is over and whose length is not the
   * batch size is forwarded at its next check: the converse of
   * `BatchesCloseOnlyWhenDue`.
   */
  lemma AsWrittenFlushesOnTimeout(cfg: Config, clock: seq<nat>, polls: seq<Poll>,
                                  ci: nat, pi: nat, c: Cycle, done: seq<Batch>)
    requires ci < |clock| && pi <= |polls|
    requires Elapsed(c.openedAt, clock[ci]) >= cfg.interval && |c.txs| != cfg.batchSize
    ensures var r := RunFrom(AsWritten, cfg, clock, polls, ci, pi, Some(c), done);
      |done| < |r.batches| && r.batches[|done|] == Batch(c.openedAt, clock[ci], c.sigsAndSlots, c.txs)
  {
    var b := Close(c, clock[ci]);
    DoneIsPrefix(AsWritten, cfg, clock, polls, ci + 1, pi, None, done + [b]);
    var r := RunFrom(AsWritten, cfg, clock, polls, ci + 1, pi, None, done + [b]);
    assert r.batches[..|done| + 1][|done|] == b;
  }

  predicate WithinBatchSize(cfg: Config, b: Batch)
  {
    |b.txs| <= cfg.batchSize
  }

  lemma {:induction false} IntendedRunBounded(cfg: Config, clock: seq<nat>, polls: seq<Poll>,
                                              ci: nat, pi: nat, cur: Option<Cycle>, done: seq<Batch>)
    requires ci <= |clock| && pi <= |polls|
    requires cur.Some? ==> |cur.value.txs| <= cfg.batchSize
    requires forall b :: b in done ==> WithinBatchSize(cfg, b)
    ensures var r := RunFrom(Intended, cfg, clock, polls, ci, pi, cur, done);
      forall b :: b in r.batches ==> WithinBatchSize(cfg, b)
    decreases |clock| - ci
  {
    if ci == |clock| {
    } else if cur.None? {
      assert |Cycle(clock[ci], [], []).txs| == 0;
      IntendedRunBounded(cfg, clock, polls, ci + 1, pi, Some(Cycle(clock[ci], [], [])), done);
      assert RunFrom(Intended, cfg, clock, polls, ci, pi, cur, done)
          == RunFrom(Intended, cfg, clock, polls, ci + 1, pi, Some(Cycle(clock[ci], [], [])), done);
    } else {
      var c := cur.value;
      if CycleOpen(Intended, cfg, Elapsed(c.openedAt, clock[ci]), |c.txs|) {
        if pi < |polls| {
          match polls[pi]
          case Received(_, _, _) =>
            var c' := Push(c, polls[pi]);
            IntendedRunBounded(cfg, clock, polls, ci + 1, pi + 1, Some(c'), done);
          case Empty =>
            IntendedRunBounded(cfg, clock, polls, ci + 1, pi + 1, cur, done);
          case Disconnected =>
        }
      } else {
        var b := Close(c, clock[ci]);
        IntendedRunBounded(cfg, clock, polls, ci + 1, pi, None, done + [b]);
      }
    }
  }

  /** Under the intended rule no forwarded batch exceeds the batch size. */
  lemma IntendedBatchesBounded(cfg: Config, clock: seq<nat>, polls: seq<Poll>)
    ensures var r := Execute(Intended, cfg, clock, polls);
      forall b :: b in r.batches ==> |b.txs| <= cfg.batchSize
  {
    IntendedRunBounded(cfg, clock, polls, 0, 0, None, []);
    var r := RunFrom(Intended, cfg, clock, polls, 0, 0, None, []);
    assert forall b :: b in r.batches ==> WithinBatchSize(cfg, b);

  }

  /**
   * As written the batch size does not cap a batch: with batch size 1 and
   * interval 10, three items received within the interval form one batch.
   */
  lemma OversizedBatchExample(a: Poll, b: Poll, c: Poll)
    requires a.Received? && b.Received? && c.Received?
    ensures var r := Execute(AsWritten, Config(1, 10), [0, 1, 2, 3, 20], [a, b, c]);
      |r.batches| == 1 && |r.batches[0].txs| == 3
  {
    var cfg := Config(1, 10);
    var clock: seq<nat> := [0, 1, 2, 3, 20];
    var polls := [a, b, c];
    var c3 := Cycle(0, [(a.signature, a.slot), (b.signature, b.slot), (c.signature, c.slot)], [a.tx, b.tx, c.tx]);
    var c2 := Cycle(0, [(a.signature, a.slot), (b.signature, b.slot)], [a.tx, b.tx]);
    var c1 := Cycle(0, [(a.signature, a.slot)], [a.tx]);
    var batch := Batch(0, 20, c3.sigsAndSlots, c3.txs);
    assert Push(Cycle(0, [], []), a) == c1;
    assert Push(c1, b) == c2;
    assert Push(c2, c) == c3;
    assert RunFrom(AsWritten, cfg, clock, polls, 4, 3, Some(c3), []) == RunResult([batch], TraceEnded, None, 3);
    assert RunFrom(AsWritten, cfg, clock, polls, 3, 2, Some(c2), []) == RunResult([batch], TraceEnded, None, 3);
    assert RunFrom(AsWritten, cfg, clock, polls, 2, 1, Some(c1), []) == RunResult([batch], TraceEnded, None, 3);
    assert RunFrom(AsWritten, cfg, clock, polls, 1, 0, Some(Cycle(0, [], [])), []) == RunResult([batch], TraceEnded, None, 3);
  }
}
