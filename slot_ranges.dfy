/**
 * Slot-range aggregation of the block store
 * (history/src/block_stores/postgres_block_store.rs): the min/max envelope of
 * a set of slots, the grouping fold of `get_slot_range_by_epoch` with its
 * uniqueness assertion, the global envelope of `get_slot_range` and the
 * coverage test of `is_block_in_range`.
 */
module SlotRanges {
  import opened Wrappers
  import opened EpochSchema

  type Slot = nat

  /** `RangeInclusive<Slot>`. */
  datatype SlotRange = SlotRange(start: Slot, end: Slot)

  /** `RangeInclusive::contains`. */
  predicate Contains(r: SlotRange, slot: Slot)
  {
    r.start <= slot <= r.end
  }

  /** SQL `min(slot)` over a non-empty group. */
  ghost function MinOf(s: set<nat>): (m: nat)
    requires s != {}
    ensures m in s && forall x :: x in s ==> m <= x
  {
    var x :| x in s;
    if s == {x} then
      assert forall y :: y in s ==> y == x;
      x
    else
      var rest := MinOf(s - {x});
      assert forall y :: y in s ==> y == x || y in s - {x};
      if x <= rest then x else rest
  }

  /** SQL `max(slot)` over a non-empty group. */
  ghost function MaxOf(s: set<nat>): (m: nat)
    requires s != {}
    ensures m in s && forall x :: x in s ==> x <= m
  {
    var x :| x in s;
    if s == {x} then
      assert forall y :: y in s ==> y == x;
      x
    else
      var rest := MaxOf(s - {x});
      assert forall y :: y in s ==> y == x || y in s - {x};
      if x >= rest then x else rest
  }

  /** The `[min(slot), max(slot)]` row of one `GROUP BY epoch` group. */
  ghost function Envelope(slots: set<Slot>): (r: SlotRange)
    requires slots != {}
    ensures r.start in slots && r.end in slots
    ensures forall s :: s in slots ==> Contains(r, s)
  {
    SlotRange(MinOf(slots), MaxOf(slots))
  }

  /** The epochs of a list of `(epoch, range)` rows. */
  function EpochsOf(rows: seq<(Epoch, SlotRange)>): set<Epoch>
  {
    set i | 0 <= i < |rows| :: rows[i].0
  }

  predicate DistinctEpochs(rows: seq<(Epoch, SlotRange)>)
  {
    forall i, j :: 0 <= i < j < |rows| ==> rows[i].0 != rows[j].0
  }

  /**
   * `into_grouping_map().fold(None, |acc, _, val| { assert!(acc.is_none()); Some(val) })`
   * over the rows of the aggregate query; `None` stands for the failed
   * assertion "epoch must be unique".
   */
  function CollectUnique(rows: seq<(Epoch, SlotRange)>): (r: Option<map<Epoch, SlotRange>>)
    ensures r.Some? <==> DistinctEpochs(rows)
    ensures r.Some? ==> r.value.Keys == EpochsOf(rows)
    ensures r.Some? ==> forall i :: 0 <= i < |rows| ==> r.value[rows[i].0] == rows[i].1
  {
    if rows == [] then Some(map[])
    else
      var init := rows[..|rows| - 1];
      var last := rows[|rows| - 1];
      LastRow(rows);
      match CollectUnique(init)
      case None => None
      case Some(m) => if last.0 in m then None else Some(m[last.0 := last.1])
  }

  /** How the rows before the last one relate to all of them. */
  lemma LastRow(rows: seq<(Epoch, SlotRange)>)
    requires rows != []
    ensures var init, last := rows[..|rows| - 1], rows[|rows| - 1];
      (forall i :: 0 <= i < |init| ==> init[i] == rows[i])
      && EpochsOf(rows) == EpochsOf(init) + {last.0}
      && (DistinctEpochs(rows) <==> DistinctEpochs(init) && last.0 !in EpochsOf(init))
  {
    var init, last := rows[..|rows| - 1], rows[|rows| - 1];
    assert forall i :: 0 <= i < |init| ==> init[i] == rows[i];
    assert EpochsOf(rows) == EpochsOf(init) + {last.0} by {
      forall k | k in EpochsOf(rows)
        ensures k in EpochsOf(init) + {last.0}
      {
        var i :| 0 <= i < |rows| && rows[i].0 == k;
        if i < |init| {
          assert init[i].0 == k;
        }
      }
    }
    if DistinctEpochs(init) && last.0 !in EpochsOf(init) {
      forall i, j | 0 <= i < j < |rows|
        ensures rows[i].0 != rows[j].0
      {
        if j < |init| {
          assert rows[i] == init[i] && rows[j] == init[j];
        } else {
          assert rows[i].0 == init[i].0;
        }
      }
    }
  }

  /** A listing of the entries of a map (by increasing epoch; the database promises no order). */
  ghost function Entries(m: map<Epoch, SlotRange>): (rows: seq<(Epoch, SlotRange)>)
    decreases |m|
  {
    if m == map[] then []
    else
      var e := MinOf(m.Keys);
      [(e, m[e])] + Entries(m - {e})
  }

  /** Every listed entry is an entry of the map. */
  lemma {:induction false} EntriesSound(m: map<Epoch, SlotRange>)
    ensures forall i :: 0 <= i < |Entries(m)| ==> Entries(m)[i].0 in m && m[Entries(m)[i].0] == Entries(m)[i].1
    decreases |m|
  {
    if m != map[] {
      var e := MinOf(m.Keys);
      var rest := Entries(m - {e});
      EntriesSound(m - {e});
      var rows := Entries(m);
      assert rows == [(e, m[e])] + rest;
      forall i | 1 <= i < |rows|
        ensures rows[i].0 in m && m[rows[i].0] == rows[i].1
      {
        assert rows[i] == rest[i - 1];
        assert rest[i - 1].0 in m - {e};
      }
    }
  }

  /** No entry is listed twice. */
  lemma {:induction false} EntriesDistinct(m: map<Epoch, SlotRange>)
    ensures DistinctEpochs(Entries(m))
    decreases |m|
  {
    if m != map[] {
      var e := MinOf(m.Keys);
      var rest := Entries(m - {e});
      EntriesDistinct(m - {e});
      EntriesSound(m - {e});
      var rows := Entries(m);
      assert rows == [(e, m[e])] + rest;
      forall i, j | 0 <= i < j < |rows|
        ensures rows[i].0 != rows[j].0
      {
        assert rows[j] == rest[j - 1];
        if i == 0 {
          assert rest[j - 1].0 in m - {e};
        } else {
          assert rows[i] == rest[i - 1];
        }
      }
    }
  }

  /** Every entry of the map is listed. */
  lemma {:induction false} EntriesCover(m: map<Epoch, SlotRange>)
    ensures m.Keys <= EpochsOf(Entries(m))
    decreases |m|
  {
    if m != map[] {
      var e := MinOf(m.Keys);
      var rest := Entries(m - {e});
      EntriesCover(m - {e});
      var rows := Entries(m);
      assert rows == [(e, m[e])] + rest;
      forall k | k in m
        ensures k in EpochsOf(rows)
      {
        if k != e {
          assert k in EpochsOf(rest);
          var i :| 0 <= i < |rest| && rest[i].0 == k;
          assert rows[i + 1] == rest[i];
        } else {
          assert rows[0].0 == k;
        }
      }
    }
  }

  /**
   * The assertion "epoch must be unique" never fails on rows produced by
   * `GROUP BY epoch`, and the fold rebuilds exactly the grouped map.
   */
  lemma CollectEntries(m: map<Epoch, SlotRange>)
    ensures CollectUnique(Entries(m)) == Some(m)
  {
    var rows := Entries(m);
    EntriesSound(m);
    EntriesDistinct(m);
    EntriesCover(m);
    var r := CollectUnique(rows).value;
    forall k | k in EpochsOf(rows)
      ensures k in m
    {
      var i :| 0 <= i < |rows| && rows[i].0 == k;
    }
    assert r.Keys == m.Keys;
    forall e | e in m
      ensures r[e] == m[e]
    {
      assert e in EpochsOf(rows);
      var i :| 0 <= i < |rows| && rows[i].0 == e;
      assert r[rows[i].0] == rows[i].1;
    }
    SameEntriesSameMap(r, m);
  }

  lemma SameEntriesSameMap(a: map<Epoch, SlotRange>, b: map<Epoch, SlotRange>)
    requires a.Keys == b.Keys
    requires forall e :: e in b ==> a[e] == b[e]
    ensures a == b
  {
  }

  ghost function Starts(m: map<Epoch, SlotRange>): set<Slot>
  {
    set e | e in m :: m[e].start
  }

  ghost function Ends(m: map<Epoch, SlotRange>): set<Slot>
  {
    set e | e in m :: m[e].end
  }

  /**
   * `get_slot_range` on a non-empty map: the least start and the greatest end
   * of the per-epoch ranges.
   */
  ghost function GlobalRange(m: map<Epoch, SlotRange>): (r: SlotRange)
    requires m != map[]
    ensures forall e :: e in m ==> r.start <= m[e].start && m[e].end <= r.end
    ensures exists e :: e in m && m[e].start == r.start
    ensures exists e :: e in m && m[e].end == r.end
  {
    var e :| e in m;
    assert m[e].start in Starts(m) && m[e].end in Ends(m);
    assert forall e :: e in m ==> m[e].start in Starts(m) && m[e].end in Ends(m);
    SlotRange(MinOf(Starts(m)), MaxOf(Ends(m)))
  }

  /** Every slot a per-epoch range covers is covered by the global range. */
  lemma GlobalRangeCoversEveryRange(m: map<Epoch, SlotRange>, e: Epoch, slot: Slot)
    requires e in m && Contains(m[e], slot)
    ensures Contains(GlobalRange(m), slot)
  {
  }

  /** {1: [10, 20], 2: [25, 30]} has the global range [10, 30]. */
  lemma GlobalRangeExample()
    ensures var m := map[1 := SlotRange(10, 20), 2 := SlotRange(25, 30)];
      1 in m && GlobalRange(m) == SlotRange(10, 30)
  {
    var m := map[1 := SlotRange(10, 20), 2 := SlotRange(25, 30)];
    assert m.Keys == {1, 2};
    assert Starts(m) == {10, 25};
    assert Ends(m) == {20, 30};
  }

  /**
   * `is_block_in_range` as written:
   * `ranges.get(&epoch).map(|r| r.contains(&slot)).is_some()`.
   */
  function InRangeAsWritten(ranges: map<Epoch, SlotRange>, epoch: Epoch, slot: Slot): (b: bool)
    ensures b <==> epoch in ranges
  {
    var matching := if epoch in ranges then Some(ranges[epoch]) else None;
    var mapped := match matching case Some(r) => Some(Contains(r, slot)) case None => None;
    mapped.Some?
  }

  /** The evidently intended test: the slot lies inside its epoch's range. */
  function InRange(ranges: map<Epoch, SlotRange>, epoch: Epoch, slot: Slot): (b: bool)
    ensures b <==> epoch in ranges && Contains(ranges[epoch], slot)
    ensures b ==> InRangeAsWritten(ranges, epoch, slot)
  {
    var matching := if epoch in ranges then Some(ranges[epoch]) else None;
    var mapped := match matching case Some(r) => Some(Contains(r, slot)) case None => None;
    mapped == Some(true)
  }

  /**
   * With {1: [10, 20], 2: [25, 30]} and slot 22 in epoch 1, the code as
   * written reports the slot as stored although no stored range holds it.
   */
  lemma InRangeAsWrittenIgnoresContainment()
    ensures var m := map[1 := SlotRange(10, 20), 2 := SlotRange(25, 30)];
      InRangeAsWritten(m, 1, 22) && !InRange(m, 1, 22)
  {
  }
}
