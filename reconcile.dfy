/** What the two change detectors compute: the reconciler of
    `detect_bag_changes` (index.py:358-422), which measures each item against
    its baseline, and the gains-only legacy scanner of `scan_for_bag_changes`
    (index.py:443-505), which compares slot totals before and after a chunk. */
module Reconcile {
  import opened Records
  import opened Store

  // -------------------------------------------------------- the reconciler

  /** `slot_changes[item]`: the sum of `count - prev_count` over the records of
      `item`, each read against the store as the earlier records left it. */
  function SlotChange(m0: Bag, recs: seq<Record>, item: Id): int
    decreases |recs|
  {
    if recs == [] then 0
    else
      var init := recs[..|recs| - 1];
      var last := recs[|recs| - 1];
      SlotChange(m0, init, item)
        + (if last.item == item then last.num - Get(WithRecords(m0, init), SlotKey(last)) else 0)
  }

  /** The order in which items first appear in the records, which is the
      iteration order of the `slot_changes` dictionary. */
  function ItemOrder(recs: seq<Record>): seq<Id>
    decreases |recs|
  {
    if recs == [] then []
    else
      var o := ItemOrder(recs[..|recs| - 1]);
      var item := recs[|recs| - 1].item;
      if item in o then o else o + [item]
  }

  /** Each item of the records appears in the order exactly once. */
  lemma {:induction false} ItemOrderSpec(recs: seq<Record>)
    ensures Distinct(ItemOrder(recs))
    ensures Elements(ItemOrder(recs)) == RecordItems(recs)
    decreases |recs|
  {
    if recs != [] {
      var init := recs[..|recs| - 1];
      var last := recs[|recs| - 1];
      ItemOrderSpec(init);
      assert RecordItems(recs) == RecordItems(init) + {last.item};
      var o := ItemOrder(init);
      if last.item !in o {
        assert Elements(o + [last.item]) == Elements(o) + {last.item};
      }
    }
  }

  /** `current_total - initial_total` */
  ghost function Net(m0: Bag, recs: seq<Record>, item: Id): int {
    Total(WithRecords(m0, recs), item) - Baseline(m0, item)
  }

  /** An item is reported when its slots moved and it differs from its baseline. */
  ghost predicate Emits(m0: Bag, recs: seq<Record>, item: Id) {
    SlotChange(m0, recs, item) != 0 && Net(m0, recs, item) != 0
  }

  /** The events of the emission loop over the items `o`, in that order. */
  ghost function Changes(m0: Bag, recs: seq<Record>, o: seq<Id>): seq<Change>
    decreases |o|
  {
    if o == [] then []
    else
      var i := o[|o| - 1];
      Changes(m0, recs, o[..|o| - 1]) + (if Emits(m0, recs, i) then [Change(i, Net(m0, recs, i))] else [])
  }

  ghost function Emitted(m0: Bag, recs: seq<Record>, items: set<Id>): set<Id> {
    set i | i in items && Emits(m0, recs, i)
  }

  /** The store after `detect_bag_changes`: the records written, and every
      reported item rebased to its new slot total. */
  ghost function Reconciled(m0: Bag, recs: seq<Record>): Bag {
    Rebase(WithRecords(m0, recs), Emitted(m0, recs, RecordItems(recs)))
  }

  /** The events `detect_bag_changes` returns. */
  ghost function ReconcileChanges(m0: Bag, recs: seq<Record>): seq<Change> {
    Changes(m0, recs, ItemOrder(recs))
  }

  /** The accumulated slot changes telescope: they add up to how far the item's
      slot total moved over the chunk. */
  lemma {:induction false} SlotChangeTelescopes(m0: Bag, recs: seq<Record>, item: Id)
    ensures SlotChange(m0, recs, item) == Total(WithRecords(m0, recs), item) - Total(m0, item)
    decreases |recs|
  {
    if recs != [] {
      var init := recs[..|recs| - 1];
      var last := recs[|recs| - 1];
      SlotChangeTelescopes(m0, init, item);
      SumUpdate(WithRecords(m0, init), SlotKey(last), last.num, OnlyItem(item));
    }
  }

  lemma {:induction false} ChangesSpec(m0: Bag, recs: seq<Record>, o: seq<Id>)
    requires Distinct(o)
    ensures DistinctItems(Changes(m0, recs, o))
    ensures forall c | c in Changes(m0, recs, o) ::
      c.item in o && Emits(m0, recs, c.item) && c.net == Net(m0, recs, c.item)
    ensures forall i | i in o && Emits(m0, recs, i) :: Change(i, Net(m0, recs, i)) in Changes(m0, recs, o)
    decreases |o|
  {
    if o != [] {
      var init := o[..|o| - 1];
      var i := o[|o| - 1];
      assert Distinct(init);
      ChangesSpec(m0, recs, init);
      forall c | c in Changes(m0, recs, init) ensures c.item != i {
        assert c.item in init;
      }
      assert forall j | j in o :: j in init || j == i;
    }
  }

  lemma {:induction false} ChangesNet(m0: Bag, recs: seq<Record>, o: seq<Id>, item: Id)
    requires Distinct(o)
    ensures NetOf(Changes(m0, recs, o), item) == if item in o && Emits(m0, recs, item) then Net(m0, recs, item) else 0
    decreases |o|
  {
    if o != [] {
      var init := o[..|o| - 1];
      var i := o[|o| - 1];
      assert Distinct(init);
      ChangesNet(m0, recs, init, item);
      var tail := if Emits(m0, recs, i) then [Change(i, Net(m0, recs, i))] else [];
      NetOfAppend(Changes(m0, recs, init), tail, item);
      if tail != [] {
        assert tail[..0] == [];
      }
      assert item in o <==> item in init || item == i;
      assert item == i ==> item !in init;
    }
  }

  /** Each event of a pass: the item is in the chunk, its net is non-zero and
      equals the new slot total minus the old baseline, no item is reported
      twice, and every item whose slots moved and whose total differs from its
      baseline is reported. */
  lemma ReconcileEvents(m0: Bag, recs: seq<Record>)
    ensures DistinctItems(ReconcileChanges(m0, recs))
    ensures forall c | c in ReconcileChanges(m0, recs) ::
      && c.item in RecordItems(recs)
      && c.net != 0
      && c.net == Total(WithRecords(m0, recs), c.item) - Baseline(m0, c.item)
    ensures forall i | i in RecordItems(recs) && Emits(m0, recs, i) :: Change(i, Net(m0, recs, i)) in ReconcileChanges(m0, recs)
  {
    ItemOrderSpec(recs);
    ChangesSpec(m0, recs, ItemOrder(recs));
  }

  /** After a pass, an item whose accumulated slot change is non-zero has a
      baseline equal to its slot total. */
  lemma ReconciledBaselines(m0: Bag, recs: seq<Record>, item: Id)
    requires item in RecordItems(recs) && SlotChange(m0, recs, item) != 0
    ensures Baseline(Reconciled(m0, recs), item) == Total(Reconciled(m0, recs), item)
  {
    var m1 := WithRecords(m0, recs);
    var e := Emitted(m0, recs, RecordItems(recs));
    RebaseSpec(m1, e);
    if item !in e {
      WithRecordsFrame(m0, recs, Init(item));
    }
  }

  /** A pass leaves alone the slots the chunk does not name and the baselines
      of the items it does not report. */
  lemma ReconciledFrame(m0: Bag, recs: seq<Record>, k: Key)
    requires (k.Slot? && k !in Mentioned(recs)) || (k.Init? && k.item !in Emitted(m0, recs, RecordItems(recs)))
    ensures (k in Reconciled(m0, recs) <==> k in m0)
    ensures k in m0 ==> Reconciled(m0, recs)[k] == m0[k]
  {
    var m1 := WithRecords(m0, recs);
    var e := Emitted(m0, recs, RecordItems(recs));
    RebaseSpec(m1, e);
    WithRecordsFrame(m0, recs, k);
    if k.Slot? {
      assert k in m1 <==> k in SlotKeys(m1);
      assert k in Reconciled(m0, recs) <==> k in SlotKeys(Reconciled(m0, recs));
    }
  }

  /** Last write wins through a pass too. */
  lemma ReconciledLastWrite(m0: Bag, recs: seq<Record>, j: nat)
    requires j < |recs|
    requires forall j' | j < j' < |recs| :: SlotKey(recs[j']) != SlotKey(recs[j])
    ensures SlotKey(recs[j]) in Reconciled(m0, recs)
    ensures Reconciled(m0, recs)[SlotKey(recs[j])] == recs[j].num
  {
    var m1 := WithRecords(m0, recs);
    LastWriteWins(m0, recs, j);
    RebaseSpec(m1, Emitted(m0, recs, RecordItems(recs)));
    assert SlotKey(recs[j]) in SlotKeys(m1);
  }

  /** Writing the chunk's records again over the reconciled store changes nothing. */
  lemma ReconciledReplay(m0: Bag, recs: seq<Record>)
    ensures WithRecords(Reconciled(m0, recs), recs) == Reconciled(m0, recs)
  {
    var m1 := WithRecords(m0, recs);
    var r := Reconciled(m0, recs);
    RebaseSpec(m1, Emitted(m0, recs, RecordItems(recs)));
    var again := WithRecords(r, recs);
    WithRecordsKeys(r, recs);
    forall k | k in again.Keys ensures k in r && again[k] == r[k] {
      if k in Mentioned(recs) {
        WithRecordsWritten(r, m0, recs, k);
        assert k in SlotKeys(m1);
      } else {
        WithRecordsFrame(r, recs, k);
      }
    }
    assert again.Keys == r.Keys;
  }

  lemma {:induction false} QuietChanges(m0: Bag, recs: seq<Record>, o: seq<Id>)
    requires forall i | i in o :: !Emits(m0, recs, i)
    ensures Changes(m0, recs, o) == []
    decreases |o|
  {
    if o != [] {
      QuietChanges(m0, recs, o[..|o| - 1]);
    }
  }

  /** Replaying the identical chunk emits nothing and changes nothing. */
  lemma ReconcileIdempotent(m0: Bag, recs: seq<Record>)
    ensures ReconcileChanges(Reconciled(m0, recs), recs) == []
    ensures Reconciled(Reconciled(m0, recs), recs) == Reconciled(m0, recs)
  {
    var r := Reconciled(m0, recs);
    ReconciledReplay(m0, recs);
    forall i ensures !Emits(r, recs, i) {
      SlotChangeTelescopes(r, recs, i);
    }
    QuietChanges(r, recs, ItemOrder(recs));
    assert Emitted(r, recs, RecordItems(recs)) == {};
    RebaseNothing(r);
  }

  /** Conservation for one item whose baseline matches its total: the pass
      reports exactly the movement of its slot total, and the baseline matches
      the total again afterwards. */
  lemma ReconcileConservesItem(m0: Bag, recs: seq<Record>, item: Id)
    requires Baseline(m0, item) == Total(m0, item)
    ensures NetOf(ReconcileChanges(m0, recs), item) == Total(Reconciled(m0, recs), item) - Total(m0, item)
    ensures Baseline(Reconciled(m0, recs), item) == Total(Reconciled(m0, recs), item)
  {
    var m1 := WithRecords(m0, recs);
    var e := Emitted(m0, recs, RecordItems(recs));
    RebaseSpec(m1, e);
    ItemOrderSpec(recs);
    ChangesNet(m0, recs, ItemOrder(recs), item);
    SlotChangeTelescopes(m0, recs, item);
    if item !in RecordItems(recs) {
      TotalUntouched(m0, recs, item);
    }
    if item !in e {
      WithRecordsFrame(m0, recs, Init(item));
    }
  }

  /** The tracker reconciling a sequence of chunks, one after another. */
  ghost function ReconcileRun(m: Bag, chunks: seq<seq<Record>>): Bag
    decreases |chunks|
  {
    if chunks == [] then m else Reconciled(ReconcileRun(m, chunks[..|chunks| - 1]), chunks[|chunks| - 1])
  }

  /** The sum of all nets reported for `item` over the run. */
  ghost function RunNet(m: Bag, chunks: seq<seq<Record>>, item: Id): int
    decreases |chunks|
  {
    if chunks == [] then 0
    else
      var before := ReconcileRun(m, chunks[..|chunks| - 1]);
      RunNet(m, chunks[..|chunks| - 1], item) + NetOf(ReconcileChanges(before, chunks[|chunks| - 1]), item)
  }

  /** Conservation over a run: the nets reported for an item add up to its
      final slot total minus its total at the last baseline reset. */
  lemma {:induction false} RunConserves(m: Bag, chunks: seq<seq<Record>>, item: Id)
    requires Baseline(m, item) == Total(m, item)
    ensures RunNet(m, chunks, item) == Total(ReconcileRun(m, chunks), item) - Total(m, item)
    ensures Baseline(ReconcileRun(m, chunks), item) == Total(ReconcileRun(m, chunks), item)
    decreases |chunks|
  {
    if chunks != [] {
      var init := chunks[..|chunks| - 1];
      RunConserves(m, init, item);
      ReconcileConservesItem(ReconcileRun(m, init), chunks[|chunks| - 1], item);
    }
  }

  // ----------------------------------------------------- the legacy scanner

  /** The chunk is taken as the first observed snapshot: the totals before sum
      to 0 and the totals after are positive. */
  ghost predicate FirstObserved(prev: Bag, recs: seq<Record>) {
    GrandTotal(prev) == 0 && GrandTotal(WithRecords(prev, recs)) > 0
  }

  /** Once per item, every positive rise of a slot total from `prev` to `cur`,
      and nothing else. */
  ghost predicate Rises(prev: Bag, cur: Bag, drops: seq<Change>) {
    && DistinctItems(drops)
    && (forall d | d in drops :: d.net == Total(cur, d.item) - Total(prev, d.item) && d.net > 0)
    && (forall i | Total(cur, i) > Total(prev, i) :: Change(i, Total(cur, i) - Total(prev, i)) in drops)
  }

  /** The drops of the legacy scanner: nothing on a first observed snapshot,
      otherwise the rises of the slot totals. */
  ghost predicate LegacyDrops(prev: Bag, recs: seq<Record>, drops: seq<Change>) {
    if FirstObserved(prev, recs) then drops == [] else Rises(prev, WithRecords(prev, recs), drops)
  }

  lemma {:induction false} NetOfUnique(changes: seq<Change>, c: Change)
    requires DistinctItems(changes) && c in changes
    ensures NetOf(changes, c.item) == c.net
    decreases |changes|
  {
    var init := changes[..|changes| - 1];
    var last := changes[|changes| - 1];
    if last == c {
      forall d | d in init ensures d.item != c.item {
        var a :| 0 <= a < |init| && init[a] == d;
        assert changes[a] == d;
      }
      NetOfAbsent(init, c.item);
    } else {
      assert c in init;
      assert last.item != c.item by {
        var a :| 0 <= a < |init| && init[a] == c;
        assert changes[a] == c;
      }
      NetOfUnique(init, c);
    }
  }

  /** The legacy scanner reports, for an item whose baseline matches its total,
      the gain the reconciler would report and nothing when the reconciler
      would report a loss (outside the first observed snapshot). */
  lemma LegacyAgreesOnGains(prev: Bag, recs: seq<Record>, drops: seq<Change>, item: Id)
    requires LegacyDrops(prev, recs, drops) && !FirstObserved(prev, recs)
    requires Baseline(prev, item) == Total(prev, item)
    ensures var net := NetOf(ReconcileChanges(prev, recs), item);
      NetOf(drops, item) == if net > 0 then net else 0
  {
    var cur := WithRecords(prev, recs);
    var net := NetOf(ReconcileChanges(prev, recs), item);
    assert net == Total(cur, item) - Total(prev, item) by {
      ReconcileConservesItem(prev, recs, item);
      RebaseSpec(cur, Emitted(prev, recs, RecordItems(recs)));
    }
    if Total(cur, item) > Total(prev, item) {
      assert Change(item, Total(cur, item) - Total(prev, item)) in drops;
      NetOfUnique(drops, Change(item, Total(cur, item) - Total(prev, item)));
    } else {
      assert forall d | d in drops :: d.item != item;
      NetOfAbsent(drops, item);
    }
  }

  /** The legacy scanner never reports an item the chunk does not name. */
  lemma LegacyReportsChunkItems(prev: Bag, recs: seq<Record>, drops: seq<Change>)
    requires LegacyDrops(prev, recs, drops)
    ensures forall d | d in drops :: d.item in RecordItems(recs)
  {
    forall d | d in drops ensures d.item in RecordItems(recs) {
      if d.item !in RecordItems(recs) {
        TotalUntouched(prev, recs, d.item);
      }
    }
  }

  // ------------------------------------------------------------- the loops

  /** The state of the first loop of `detect_bag_changes` after the records
      `recs`: every record written into its slot, and each item's accumulated
      slot change. */
  ghost predicate Accumulated(m0: Bag, recs: seq<Record>, m1: Bag, slotChanges: map<Id, int>) {
    && m1 == WithRecords(m0, recs)
    && slotChanges.Keys == RecordItems(recs)
    && forall i | i in slotChanges :: slotChanges[i] == SlotChange(m0, recs, i)
  }

  lemma ItemOrderStep(pre: seq<Record>, r: Record)
    ensures ItemOrder(pre + [r]) == if r.item in RecordItems(pre) then ItemOrder(pre) else ItemOrder(pre) + [r.item]
  {
    ItemOrderSpec(pre);
    var post := pre + [r];
    assert post[..|post| - 1] == pre && post[|post| - 1] == r;
  }

  /** One more record moves only its own item's slot change, by its count
      over the slot's previous count. */
  lemma SlotChangeAppend(m0: Bag, pre: seq<Record>, r: Record, i: Id)
    ensures SlotChange(m0, pre + [r], i)
         == SlotChange(m0, pre, i) + (if r.item == i then r.num - Get(WithRecords(m0, pre), SlotKey(r)) else 0)
  {
    assert (pre + [r])[..|pre|] == pre;
  }

  lemma SlotChangeStep(m0: Bag, pre: seq<Record>, r: Record, slotChanges: map<Id, int>, next: map<Id, int>)
    requires slotChanges.Keys == RecordItems(pre)
    requires forall i | i in slotChanges :: slotChanges[i] == SlotChange(m0, pre, i)
    requires next == slotChanges[r.item := Get(slotChanges, r.item) + (r.num - Get(WithRecords(m0, pre), SlotKey(r)))]
    ensures next.Keys == RecordItems(pre + [r])
    ensures forall i | i in next :: next[i] == SlotChange(m0, pre + [r], i)
  {
    assert RecordItems(pre + [r]) == RecordItems(pre) + {r.item};
    if r.item !in slotChanges {
      SlotChangeTelescopes(m0, pre, r.item);
      TotalUntouched(m0, pre, r.item);
    }
    forall i | i in next ensures next[i] == SlotChange(m0, pre + [r], i) {
      SlotChangeAppend(m0, pre, r, i);
    }
  }

  /** One record of the first loop of `detect_bag_changes`. */
  method AccumulateRecord(ghost m0: Bag, ghost pre: seq<Record>, r: Record, m1: Bag, slotChanges: map<Id, int>)
    returns (m1': Bag, slotChanges': map<Id, int>)
    requires Accumulated(m0, pre, m1, slotChanges)
    ensures Accumulated(m0, pre + [r], m1', slotChanges')
  {
    ghost var post := pre + [r];
    assert post[..|post| - 1] == pre && post[|post| - 1] == r;
    var prevCount := Get(m1, SlotKey(r));
    m1' := m1[SlotKey(r) := r.num];
    slotChanges' := slotChanges;
    if r.item !in slotChanges' {
      slotChanges' := slotChanges'[r.item := 0];
    }
    slotChanges' := slotChanges'[r.item := slotChanges'[r.item] + (r.num - prevCount)];
    SlotChangeStep(m0, pre, r, slotChanges, slotChanges');
  }

  /** The first loop of `detect_bag_changes`: every record written into its
      slot, and per item, in order of first appearance, the accumulated slot
      change. */
  method AccumulateSlotChanges(m0: Bag, recs: seq<Record>)
    returns (m1: Bag, order: seq<Id>, slotChanges: map<Id, int>)
    ensures m1 == WithRecords(m0, recs)
    ensures order == ItemOrder(recs)
    ensures slotChanges.Keys == RecordItems(recs)
    ensures forall i | i in slotChanges :: slotChanges[i] == SlotChange(m0, recs, i)
  {
    m1, order, slotChanges := m0, [], map[];
    for j := 0 to |recs|
      invariant Accumulated(m0, recs[..j], m1, slotChanges)
      invariant order == ItemOrder(recs[..j])
    {
      var r := recs[j];
      assert recs[..j + 1] == recs[..j] + [r];
      ItemOrderStep(recs[..j], r);
      if r.item !in slotChanges {
        order := order + [r.item];
      }
      m1, slotChanges := AccumulateRecord(m0, recs[..j], r, m1, slotChanges);
    }
    assert recs[..|recs|] == recs;
  }

  /** One more item visited adds itself to the reported items exactly when
      it is reported. */
  lemma EmittedStep(m0: Bag, recs: seq<Record>, done: seq<Id>, i: Id)
    ensures Emits(m0, recs, i) ==>
      Emitted(m0, recs, Elements(done + [i])) == Emitted(m0, recs, Elements(done)) + {i}
    ensures !Emits(m0, recs, i) ==>
      Emitted(m0, recs, Elements(done + [i])) == Emitted(m0, recs, Elements(done))
  {
    assert Elements(done + [i]) == Elements(done) + {i};
  }

  /** One more item visited appends its event exactly when it is reported. */
  lemma ChangesStep(m0: Bag, recs: seq<Record>, done: seq<Id>, i: Id)
    ensures Emits(m0, recs, i) ==> Changes(m0, recs, done + [i]) == Changes(m0, recs, done) + [Change(i, Net(m0, recs, i))]
    ensures !Emits(m0, recs, i) ==> Changes(m0, recs, done + [i]) == Changes(m0, recs, done)
  {
    assert (done + [i])[..|done|] == done;
  }

  /** An item not yet rebased still has its baseline from before the chunk,
      and its slot total from after it. */
  lemma NotYetRebased(m0: Bag, recs: seq<Record>, e: set<Id>, i: Id)
    requires i !in e
    ensures Baseline(Rebase(WithRecords(m0, recs), e), i) == Baseline(m0, i)
    ensures Total(Rebase(WithRecords(m0, recs), e), i) == Total(WithRecords(m0, recs), i)
  {
    RebaseSpec(WithRecords(m0, recs), e);
    WithRecordsFrame(m0, recs, Init(i));
  }

  /** One item of the second loop of `detect_bag_changes`, after the items
      `done`. */
  method EmitItem(ghost m0: Bag, ghost recs: seq<Record>, ghost m1: Bag, ghost done: seq<Id>,
                  i: Id, slotChange: int, m: Bag, changes: seq<Change>)
    returns (m': Bag, changes': seq<Change>)
    requires m1 == WithRecords(m0, recs) && i !in done
    requires slotChange == SlotChange(m0, recs, i)
    requires m == Rebase(m1, Emitted(m0, recs, Elements(done)))
    requires changes == Changes(m0, recs, done)
    ensures m' == Rebase(m1, Emitted(m0, recs, Elements(done + [i])))
    ensures changes' == Changes(m0, recs, done + [i])
  {
    ghost var e := Emitted(m0, recs, Elements(done));
    EmittedStep(m0, recs, done, i);
    ChangesStep(m0, recs, done, i);
    NotYetRebased(m0, recs, e, i);
    m', changes' := m, changes;
    if slotChange != 0 {
      var initial := Get(m, Init(i));
      var current := SumSlots(m, OnlyItem(i));
      if current - initial != 0 {
        assert Emits(m0, recs, i);
        changes' := changes + [Change(i, current - initial)];
        m' := m[Init(i) := current];
        RebaseAdd(m1, e, i);
      } else {
        assert !Emits(m0, recs, i);
      }
    } else {
      assert !Emits(m0, recs, i);
    }
  }

  /** The second loop of `detect_bag_changes`: items visited in `order`; an
      item whose slots moved and whose slot total differs from its baseline is
      reported and rebased. */
  method EmitChanges(m0: Bag, recs: seq<Record>, m1: Bag, order: seq<Id>, slotChanges: map<Id, int>)
    returns (m: Bag, changes: seq<Change>)
    requires m1 == WithRecords(m0, recs)
    requires Distinct(order) && Elements(order) <= RecordItems(recs)
    requires forall i | i in order :: i in slotChanges && slotChanges[i] == SlotChange(m0, recs, i)
    ensures m == Rebase(m1, Emitted(m0, recs, Elements(order)))
    ensures changes == Changes(m0, recs, order)
  {
    m, changes := m1, [];
    RebaseNothing(m1);
    assert Emitted(m0, recs, Elements(order[..0])) == {};
    for n := 0 to |order|
      invariant m == Rebase(m1, Emitted(m0, recs, Elements(order[..n])))
      invariant changes == Changes(m0, recs, order[..n])
    {
      var i := order[n];
      assert order[..n + 1] == order[..n] + [i];
      assert i !in order[..n] by {
        assert forall a | 0 <= a < n :: order[..n][a] == order[a];
      }
      m, changes := EmitItem(m0, recs, m1, order[..n], i, slotChanges[i], m, changes);
    }
    assert order[..|order|] == order;
  }

  /** `detect_bag_changes` on an initialized store. */
  method ReconcilePass(m0: Bag, recs: seq<Record>) returns (m: Bag, changes: seq<Change>)
    ensures m == Reconciled(m0, recs)
    ensures changes == ReconcileChanges(m0, recs)
  {
    if |recs| == 0 {
      assert Emitted(m0, recs, RecordItems(recs)) == {};
      RebaseNothing(m0);
      return m0, [];
    }
    var m1, order, slotChanges := AccumulateSlotChanges(m0, recs);
    ItemOrderSpec(recs);
    m, changes := EmitChanges(m0, recs, m1, order, slotChanges);
  }

  /** The comparison loop of the legacy scanner: once per item of the totals
      after the chunk, its rise over the totals before, when positive. */
  method Gains(previousTotals: map<Id, int>, currentTotals: map<Id, int>) returns (drops: seq<Change>)
    ensures DistinctItems(drops)
    ensures forall d | d in drops ::
      d.item in currentTotals && d.net == currentTotals[d.item] - Get(previousTotals, d.item) && d.net > 0
    ensures forall i | i in currentTotals && currentTotals[i] > Get(previousTotals, i) ::
      Change(i, currentTotals[i] - Get(previousTotals, i)) in drops
  {
    drops := [];
    var rest := currentTotals.Keys;
    while rest != {}
      invariant rest <= currentTotals.Keys
      invariant DistinctItems(drops)
      invariant forall d | d in drops ::
        d.item in currentTotals && d.item !in rest
        && d.net == currentTotals[d.item] - Get(previousTotals, d.item) && d.net > 0
      invariant forall i | i in currentTotals && i !in rest && currentTotals[i] > Get(previousTotals, i) ::
        Change(i, currentTotals[i] - Get(previousTotals, i)) in drops
      decreases rest
    {
      var i :| i in rest;
      var previous := Get(previousTotals, i);
      if currentTotals[i] > previous {
        drops := drops + [Change(i, currentTotals[i] - previous)];
      }
      rest := rest - {i};
    }
  }

  /** `totals.get(i, 0)` is the slot total of any item, once `totals` holds
      the slot totals. */
  lemma CountIsTotal(m: Bag, totals: map<Id, int>, i: Id)
    requires totals.Keys == SlotItems(m)
    requires forall j | j in totals :: totals[j] == Total(m, j)
    ensures Get(totals, i) == Total(m, i)
  {
    if i !in totals {
      NoSlotsNoTotal(m, i);
    }
  }

  /** Writing records never takes a slot key away. */
  lemma SlotItemsGrow(prev: Bag, recs: seq<Record>)
    ensures SlotItems(prev) <= SlotItems(WithRecords(prev, recs))
  {
    WithRecordsKeys(prev, recs);
    assert forall k | k in prev && k.Slot? :: k in WithRecords(prev, recs);
  }

  /** Once both total maps hold the slot totals, the positive rises found
      between them are the rises of the slot totals. */
  lemma GainsAreRises(prev: Bag, cur: Bag, previousTotals: map<Id, int>,
                      currentTotals: map<Id, int>, drops: seq<Change>)
    requires SlotItems(prev) <= SlotItems(cur)
    requires previousTotals.Keys == SlotItems(prev)
    requires forall j | j in previousTotals :: previousTotals[j] == Total(prev, j)
    requires currentTotals.Keys == SlotItems(cur)
    requires forall j | j in currentTotals :: currentTotals[j] == Total(cur, j)
    requires DistinctItems(drops)
    requires forall d | d in drops ::
      d.item in currentTotals && d.net == currentTotals[d.item] - Get(previousTotals, d.item) && d.net > 0
    requires forall i | i in currentTotals && currentTotals[i] > Get(previousTotals, i) ::
      Change(i, currentTotals[i] - Get(previousTotals, i)) in drops
    ensures Rises(prev, cur, drops)
  {
    forall d | d in drops ensures d.net == Total(cur, d.item) - Total(prev, d.item) && d.net > 0 {
      CountIsTotal(prev, previousTotals, d.item);
    }
    forall i | Total(cur, i) > Total(prev, i) ensures Change(i, Total(cur, i) - Total(prev, i)) in drops {
      CountIsTotal(prev, previousTotals, i);
      if i !in currentTotals {
        NoSlotsNoTotal(cur, i);
        NoSlotsNoTotal(prev, i);
      }
    }
  }

  /** The legacy scanner. The two `sum(...values())` are computed over the
      slots directly, which adds up the same quantities. */
  method LegacyPass(prev: Bag, recs: seq<Record>) returns (m: Bag, drops: seq<Change>)
    ensures m == WithRecords(prev, recs)
    ensures LegacyDrops(prev, recs, drops)
  {
    if |recs| == 0 {
      return prev, [];
    }
    var previousTotals := SlotTotals(prev);
    var current := ApplyRecords(prev, recs);
    var currentTotals := SlotTotals(current);
    var before := SumSlots(prev, AllItems);
    var after := SumSlots(current, AllItems);
    if before == 0 && after > 0 {
      return current, [];
    }
    drops := Gains(previousTotals, currentTotals);
    SlotItemsGrow(prev, recs);
    GainsAreRises(prev, current, previousTotals, currentTotals, drops);
    // `bag_state.update(current_state)`: the copy already holds every key
    m := current;
  }
}
