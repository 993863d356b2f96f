/** The three ways the tracker (re)sets baselines: the explicit full-bag
    snapshot of `process_initialization` (index.py:298-356), the implicit
    bootstrap of `initialize_bag_state` (index.py:224-274) and the session
    reset of `reset_map_baseline` (index.py:672-692). */
module Snapshot {
  import opened Records
  import opened Store
  import opened Reconcile

  /** `process_initialization` needs at least this many InitBagData records. */
  const SnapshotThreshold: nat := 20

  /** `initialize_bag_state` needs more than this many Modfy records. */
  const BootstrapThreshold: nat := 10

  // -------------------------------------------------------------- snapshot

  /** `item_totals` of `process_initialization`: per item, the sum of the
      quantities of its records, taken record by record. */
  function RecordTotals(recs: seq<Record>): map<Id, int>
    decreases |recs|
  {
    if recs == [] then map[]
    else
      var t := RecordTotals(recs[..|recs| - 1]);
      var last := recs[|recs| - 1];
      t[last.item := Get(t, last.item) + last.num]
  }

  /** Every record item, and no other, has a total. */
  lemma {:induction false} RecordTotalsKeys(recs: seq<Record>)
    ensures RecordTotals(recs).Keys == RecordItems(recs)
    decreases |recs|
  {
    if recs != [] {
      RecordTotalsKeys(recs[..|recs| - 1]);
      assert RecordItems(recs) == RecordItems(recs[..|recs| - 1]) + {recs[|recs| - 1].item};
    }
  }

  /** The store a successful snapshot leaves: it is cleared, each record's
      slot written, and each item's record sum written as its baseline. */
  function SnapshotBag(recs: seq<Record>): Bag {
    WithBaselines(WithRecords(map[], recs), RecordTotals(recs))
  }

  /** The snapshot store holds exactly the record slots and one baseline per
      record item; each slot holds its last record's quantity and each
      baseline its item's record sum. */
  lemma SnapshotContents(recs: seq<Record>)
    ensures SnapshotBag(recs).Keys == Mentioned(recs) + InitKeys(RecordItems(recs))
    ensures forall j | 0 <= j < |recs| && (forall j' | j < j' < |recs| :: SlotKey(recs[j']) != SlotKey(recs[j])) ::
      SnapshotBag(recs)[SlotKey(recs[j])] == recs[j].num
    ensures forall i | i in RecordItems(recs) :: Baseline(SnapshotBag(recs), i) == Get(RecordTotals(recs), i)
  {
    var m1 := WithRecords(map[], recs);
    WithRecordsKeys(map[], recs);
    RecordTotalsKeys(recs);
    WithBaselinesSpec(m1, RecordTotals(recs));
    forall j | 0 <= j < |recs| && (forall j' | j < j' < |recs| :: SlotKey(recs[j']) != SlotKey(recs[j]))
      ensures SnapshotBag(recs)[SlotKey(recs[j])] == recs[j].num
    {
      LastWriteWins(map[], recs, j);
      assert SlotKey(recs[j]) in SlotKeys(m1);
    }
  }

  /** No two records name the same slot. */
  predicate DistinctSlots(recs: seq<Record>) {
    forall a, b | 0 <= a < b < |recs| :: SlotKey(recs[a]) != SlotKey(recs[b])
  }

  /** With distinct slots, an item's record sum is its slot total. */
  lemma {:induction false} RecordTotalsAreSlotTotals(recs: seq<Record>, item: Id)
    requires DistinctSlots(recs)
    ensures Get(RecordTotals(recs), item) == Total(WithRecords(map[], recs), item)
    decreases |recs|
  {
    if recs == [] {
      assert SlotKeys(map[]) == {};
    } else {
      var init := recs[..|recs| - 1];
      var last := recs[|recs| - 1];
      assert DistinctSlots(init) by {
        forall a, b | 0 <= a < b < |init| ensures SlotKey(init[a]) != SlotKey(init[b]) {
          assert init[a] == recs[a] && init[b] == recs[b];
        }
      }
      RecordTotalsAreSlotTotals(init, item);
      assert SlotKey(last) !in Mentioned(init);
      WithRecordsKeys(map[], init);
      SumUpdate(WithRecords(map[], init), SlotKey(last), last.num, OnlyItem(item));
    }
  }

  /** With distinct slots, every baseline of the snapshot store equals its
      item's slot total. */
  lemma SnapshotBaselinesMatch(recs: seq<Record>)
    requires DistinctSlots(recs)
    ensures forall i :: Baseline(SnapshotBag(recs), i) == Total(SnapshotBag(recs), i)
  {
    var m1 := WithRecords(map[], recs);
    WithBaselinesSpec(m1, RecordTotals(recs));
    forall i ensures Baseline(SnapshotBag(recs), i) == Total(SnapshotBag(recs), i) {
      RecordTotalsAreSlotTotals(recs, i);
      if i !in RecordTotals(recs) {
        WithRecordsFrame(map[], recs, Init(i));
      }
    }
  }

  /** As written, the record sum counts a slot as often as it is dumped: a
      slot dumped twice gets a baseline of twice its quantity. */
  lemma DuplicateSlotCountsTwice(r: Record)
    ensures Baseline(SnapshotBag([r, r]), r.item) == 2 * r.num
    ensures Total(SnapshotBag([r, r]), r.item) == r.num
  {
    var recs := [r, r];
    var one := map[SlotKey(r) := r.num];
    assert recs[..1] == [r];
    assert [r][..0] == [];
    assert WithRecords(map[], [r]) == one;
    assert WithRecords(map[], recs) == one;
    assert RecordTotals([r]) == map[r.item := r.num];
    assert RecordTotals(recs) == map[r.item := 2 * r.num];
    WithBaselinesSpec(one, RecordTotals(recs));
    assert SlotKeys(map[]) == {};
    SumUpdate(map[], SlotKey(r), r.num, OnlyItem(r.item));
  }

  // ------------------------------------------------- bootstrap and resets

  /** `reset_map_baseline`: every item with a slot key gets its slot total as
      its baseline. */
  ghost function MapBaselineReset(m: Bag): Bag {
    Rebase(m, SlotItems(m))
  }

  /** The store after a successful implicit bootstrap: the records written,
      then the baselines reset as `reset_map_baseline` does. */
  ghost function Bootstrapped(m: Bag, recs: seq<Record>): Bag {
    MapBaselineReset(WithRecords(m, recs))
  }

  /** A baseline reset keeps every slot, gives each item with a slot key a
      baseline equal to its slot total, and leaves the baselines of items
      without slot keys alone. */
  lemma MapBaselineResetSpec(m: Bag)
    ensures SameSlots(MapBaselineReset(m), m)
    ensures forall i | i in SlotItems(m) ::
      Init(i) in MapBaselineReset(m) && Baseline(MapBaselineReset(m), i) == Total(MapBaselineReset(m), i)
    ensures forall i | i !in SlotItems(m) ::
      (Init(i) in MapBaselineReset(m) <==> Init(i) in m) && Baseline(MapBaselineReset(m), i) == Baseline(m, i)
  {
    RebaseSpec(m, SlotItems(m));
  }

  /** The session reset isolates deltas: after it, the reconciler reports for
      an item exactly how far its slot total moved since the reset, whatever
      the baseline was before. */
  lemma SessionIsolation(m: Bag, recs: seq<Record>, item: Id)
    requires item in SlotItems(m)
    ensures NetOf(ReconcileChanges(MapBaselineReset(m), recs), item)
         == Total(Reconciled(MapBaselineReset(m), recs), item) - Total(m, item)
  {
    MapBaselineResetSpec(m);
    ReconcileConservesItem(MapBaselineReset(m), recs, item);
  }

  // ------------------------------------------------------------- the loop

  lemma ReadSnapshotStep(pre: seq<Record>, r: Record)
    ensures WithRecords(map[], pre + [r]) == WithRecords(map[], pre)[SlotKey(r) := r.num]
    ensures RecordTotals(pre + [r]) == RecordTotals(pre)[r.item := Get(RecordTotals(pre), r.item) + r.num]
  {
    var post := pre + [r];
    assert post[..|post| - 1] == pre && post[|post| - 1] == r;
  }

  /** The record loop of `process_initialization` on a cleared store: each
      record written into its slot and added to its item's total. */
  method ReadSnapshot(recs: seq<Record>) returns (m: Bag, totals: map<Id, int>)
    ensures m == WithRecords(map[], recs)
    ensures totals == RecordTotals(recs)
  {
    m, totals := map[], map[];
    for j := 0 to |recs|
      invariant m == WithRecords(map[], recs[..j])
      invariant totals == RecordTotals(recs[..j])
    {
      var r := recs[j];
      assert recs[..j + 1] == recs[..j] + [r];
      ReadSnapshotStep(recs[..j], r);
      m := m[SlotKey(r) := r.num];
      if r.item !in totals {
        totals := totals[r.item := 0];
      }
      totals := totals[r.item := totals[r.item] + r.num];
    }
    assert recs[..|recs|] == recs;
  }
}
