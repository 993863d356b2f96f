/** The bag store: slot quantities and per-item baselines in one map, the slot
    totals read from it, and the two ways the tracker writes it (applying slot
    records, and writing baselines). */
module Store {
  import opened Records

  /** A key of the store. The source spells these `"page:slot:item"` and
      `"init:item"`; the identifiers hold no ':' so the two never collide. */
  datatype Key = Slot(page: Id, slot: Id, item: Id) | Init(item: Id)

  type Bag = map<Key, int>

  function SlotKey(r: Record): Key {
    Slot(r.page, r.slot, r.item)
  }

  /** The baseline of an item, 0 when it has none. */
  function Baseline(m: Bag, item: Id): int {
    Get(m, Init(item))
  }

  function SlotKeys(m: Bag): set<Key> {
    set k | k in m && k.Slot?
  }

  /** The items that have at least one slot key. */
  function SlotItems(m: Bag): set<Id> {
    set k | k in m && k.Slot? :: k.item
  }

  function InitKeys(items: set<Id>): set<Key> {
    set i | i in items :: Init(i)
  }

  /** Which slots a sum counts: every slot, or the slots of one item. */
  datatype Scope = AllItems | OnlyItem(item: Id)

  /** What key `k` adds to a sum: its quantity if it is a slot in scope, else 0. */
  function Contribution(m: Bag, k: Key, scope: Scope): int {
    if k in m && k.Slot? && (scope.AllItems? || k.item == scope.item) then m[k] else 0
  }

  ghost function SumOver(m: Bag, ks: set<Key>, scope: Scope): int
    decreases ks
  {
    if ks == {} then 0
    else
      var k :| k in ks;
      Contribution(m, k, scope) + SumOver(m, ks - {k}, scope)
  }

  ghost function Sum(m: Bag, scope: Scope): int {
    SumOver(m, SlotKeys(m), scope)
  }

  /** The current total of an item: the sum over all its slot keys. */
  ghost function Total(m: Bag, item: Id): int {
    Sum(m, OnlyItem(item))
  }

  /** The sum over every slot key of the store, whatever its item. */
  ghost function GrandTotal(m: Bag): int {
    Sum(m, AllItems)
  }

  /** The two stores hold the same slot keys with the same quantities. */
  ghost predicate SameSlots(a: Bag, b: Bag) {
    SlotKeys(a) == SlotKeys(b) && forall k | k in SlotKeys(a) :: a[k] == b[k]
  }

  // ---------------------------------------------------------------- sums

  lemma {:induction false} SumOverRemove(m: Bag, ks: set<Key>, k: Key, scope: Scope)
    requires k in ks
    ensures SumOver(m, ks, scope) == Contribution(m, k, scope) + SumOver(m, ks - {k}, scope)
    decreases ks
  {
    var j :| j in ks && SumOver(m, ks, scope) == Contribution(m, j, scope) + SumOver(m, ks - {j}, scope);
    if j != k {
      SumOverRemove(m, ks - {j}, k, scope);
      SumOverRemove(m, ks - {k}, j, scope);
      assert ks - {j} - {k} == ks - {k} - {j};
    }
  }

  lemma {:induction false} SumOverAgree(a: Bag, b: Bag, ks: set<Key>, scope: Scope)
    requires forall k | k in ks :: Contribution(a, k, scope) == Contribution(b, k, scope)
    ensures SumOver(a, ks, scope) == SumOver(b, ks, scope)
    decreases ks
  {
    if ks != {} {
      var k :| k in ks;
      SumOverRemove(a, ks, k, scope);
      SumOverRemove(b, ks, k, scope);
      SumOverAgree(a, b, ks - {k}, scope);
    }
  }

  lemma {:induction false} SumOverZero(m: Bag, ks: set<Key>, scope: Scope)
    requires forall k | k in ks :: Contribution(m, k, scope) == 0
    ensures SumOver(m, ks, scope) == 0
    decreases ks
  {
    if ks != {} {
      var k :| k in ks;
      SumOverRemove(m, ks, k, scope);
      SumOverZero(m, ks - {k}, scope);
    }
  }

  /** Writing one key moves a sum by exactly the change in that key's contribution. */
  lemma SumUpdate(m: Bag, k: Key, v: int, scope: Scope)
    ensures Sum(m[k := v], scope) == Sum(m, scope) - Contribution(m, k, scope) + Contribution(m[k := v], k, scope)
  {
    var m' := m[k := v];
    if k.Slot? {
      if k in m {
        assert SlotKeys(m') == SlotKeys(m);
        SumOverRemove(m', SlotKeys(m), k, scope);
        SumOverRemove(m, SlotKeys(m), k, scope);
        SumOverAgree(m', m, SlotKeys(m) - {k}, scope);
      } else {
        assert SlotKeys(m') == SlotKeys(m) + {k};
        SumOverRemove(m', SlotKeys(m'), k, scope);
        assert SlotKeys(m') - {k} == SlotKeys(m);
        SumOverAgree(m', m, SlotKeys(m), scope);
      }
    } else {
      assert SlotKeys(m') == SlotKeys(m);
      SumOverAgree(m', m, SlotKeys(m), scope);
    }
  }

  lemma SumSameSlots(a: Bag, b: Bag, scope: Scope)
    requires SameSlots(a, b)
    ensures Sum(a, scope) == Sum(b, scope)
  {
    SumOverAgree(a, b, SlotKeys(a), scope);
  }

  /** An item without slot keys totals 0. */
  lemma NoSlotsNoTotal(m: Bag, item: Id)
    requires item !in SlotItems(m)
    ensures Total(m, item) == 0
  {
    forall k | k in SlotKeys(m) ensures Contribution(m, k, OnlyItem(item)) == 0 {
      assert k.item in SlotItems(m);
    }
    SumOverZero(m, SlotKeys(m), OnlyItem(item));
  }

  // ------------------------------------------------------- slot records

  function Mentioned(recs: seq<Record>): set<Key> {
    set r | r in recs :: SlotKey(r)
  }

  /** The store after writing each record's quantity into its slot, in order
      (`bag_state[slot_key] = count` for every match). */
  function WithRecords(m: Bag, recs: seq<Record>): Bag
    decreases |recs|
  {
    if recs == [] then m
    else WithRecords(m, recs[..|recs| - 1])[SlotKey(recs[|recs| - 1]) := recs[|recs| - 1].num]
  }

  /** The keys after the records are the keys before and the named slots. */
  lemma {:induction false} WithRecordsKeys(m: Bag, recs: seq<Record>)
    ensures WithRecords(m, recs).Keys == m.Keys + Mentioned(recs)
    decreases |recs|
  {
    if recs != [] {
      WithRecordsKeys(m, recs[..|recs| - 1]);
      assert Mentioned(recs) == Mentioned(recs[..|recs| - 1]) + {SlotKey(recs[|recs| - 1])};
    }
  }

  /** Keys no record names are left alone, Init keys included. */
  lemma {:induction false} WithRecordsFrame(m: Bag, recs: seq<Record>, k: Key)
    requires k !in Mentioned(recs)
    ensures (k in WithRecords(m, recs) <==> k in m)
    ensures k in m ==> WithRecords(m, recs)[k] == m[k]
    decreases |recs|
  {
    if recs != [] {
      var init := recs[..|recs| - 1];
      assert Mentioned(recs) == Mentioned(init) + {SlotKey(recs[|recs| - 1])};
      WithRecordsFrame(m, init, k);
    }
  }

  /** A key that a record names holds a value that depends on the records alone. */
  lemma {:induction false} WithRecordsWritten(a: Bag, b: Bag, recs: seq<Record>, k: Key)
    requires k in Mentioned(recs)
    ensures k in WithRecords(a, recs) && k in WithRecords(b, recs)
    ensures WithRecords(a, recs)[k] == WithRecords(b, recs)[k]
    decreases |recs|
  {
    var init := recs[..|recs| - 1];
    var last := recs[|recs| - 1];
    assert Mentioned(recs) == Mentioned(init) + {SlotKey(last)};
    if k != SlotKey(last) {
      WithRecordsWritten(a, b, init, k);
    }
  }

  /** Last write wins: a slot holds the quantity of the last record naming it. */
  lemma {:induction false} LastWriteWins(m: Bag, recs: seq<Record>, j: nat)
    requires j < |recs|
    requires forall j' | j < j' < |recs| :: SlotKey(recs[j']) != SlotKey(recs[j])
    ensures SlotKey(recs[j]) in WithRecords(m, recs)
    ensures WithRecords(m, recs)[SlotKey(recs[j])] == recs[j].num
    decreases |recs|
  {
    if j < |recs| - 1 {
      var init := recs[..|recs| - 1];
      assert init[j] == recs[j];
      LastWriteWins(m, init, j);
    }
  }

  /** Writing the same records a second time changes nothing. */
  lemma WithRecordsIdempotent(m: Bag, recs: seq<Record>)
    ensures WithRecords(WithRecords(m, recs), recs) == WithRecords(m, recs)
  {
    var once := WithRecords(m, recs);
    var twice := WithRecords(once, recs);
    WithRecordsKeys(m, recs);
    WithRecordsKeys(once, recs);
    forall k | k in twice.Keys ensures twice[k] == once[k] {
      if k in Mentioned(recs) {
        WithRecordsWritten(once, m, recs, k);
      } else {
        WithRecordsFrame(once, recs, k);
      }
    }
    assert twice.Keys == once.Keys;
  }

  /** Records of other items do not move an item's total. */
  lemma {:induction false} TotalUntouched(m: Bag, recs: seq<Record>, item: Id)
    requires item !in RecordItems(recs)
    ensures Total(WithRecords(m, recs), item) == Total(m, item)
    decreases |recs|
  {
    if recs != [] {
      var init := recs[..|recs| - 1];
      var last := recs[|recs| - 1];
      assert RecordItems(init) <= RecordItems(recs);
      TotalUntouched(m, init, item);
      SumUpdate(WithRecords(m, init), SlotKey(last), last.num, OnlyItem(item));
    }
  }

  // ---------------------------------------------------------- baselines

  /** The store with `bag_state["init:" + i] = t[i]` written for every item of `t`. */
  function WithBaselines(m: Bag, t: map<Id, int>): Bag {
    map k | k in m.Keys + InitKeys(t.Keys) :: if k.Init? && k.item in t then t[k.item] else m[k]
  }

  /** Every item of `items` gets its current slot total as its baseline. */
  ghost function Rebase(m: Bag, items: set<Id>): Bag {
    WithBaselines(m, map i | i in items :: Total(m, i))
  }

  /** Writing baselines leaves the slots, hence every total, as they were; it
      sets exactly the baselines of the items it names. */
  lemma WithBaselinesSpec(m: Bag, t: map<Id, int>)
    ensures SameSlots(WithBaselines(m, t), m)
    ensures forall i :: Total(WithBaselines(m, t), i) == Total(m, i)
    ensures forall i | i in t :: Init(i) in WithBaselines(m, t) && Baseline(WithBaselines(m, t), i) == t[i]
    ensures forall i | i !in t :: (Init(i) in WithBaselines(m, t) <==> Init(i) in m) && Baseline(WithBaselines(m, t), i) == Baseline(m, i)
  {
    var r := WithBaselines(m, t);
    assert SlotKeys(r) == SlotKeys(m);
    forall i ensures Total(r, i) == Total(m, i) {
      SumSameSlots(r, m, OnlyItem(i));
    }
  }

  lemma RebaseSpec(m: Bag, items: set<Id>)
    ensures SameSlots(Rebase(m, items), m)
    ensures forall i :: Total(Rebase(m, items), i) == Total(m, i)
    ensures forall i | i in items :: Init(i) in Rebase(m, items) && Baseline(Rebase(m, items), i) == Total(m, i)
    ensures forall i | i !in items :: (Init(i) in Rebase(m, items) <==> Init(i) in m) && Baseline(Rebase(m, items), i) == Baseline(m, i)
  {
    WithBaselinesSpec(m, map i | i in items :: Total(m, i));
  }

  /** Writing one more baseline is one more map update. */
  lemma WithBaselinesAdd(m: Bag, t: map<Id, int>, i: Id, v: int)
    ensures WithBaselines(m, t[i := v]) == WithBaselines(m, t)[Init(i) := v]
  {
    var a, b := WithBaselines(m, t[i := v]), WithBaselines(m, t)[Init(i) := v];
    assert InitKeys(t[i := v].Keys) == InitKeys(t.Keys) + {Init(i)};
    assert a.Keys == b.Keys;
  }

  /** Rebasing one more item is one more baseline write. */
  lemma RebaseAdd(m: Bag, items: set<Id>, i: Id)
    ensures Rebase(m, items + {i}) == Rebase(m, items)[Init(i) := Total(m, i)]
  {
    var t := map j | j in items :: Total(m, j);
    assert (map j | j in items + {i} :: Total(m, j)) == t[i := Total(m, i)];
    WithBaselinesAdd(m, t, i, Total(m, i));
  }

  lemma RebaseNothing(m: Bag)
    ensures Rebase(m, {}) == m
  {
    assert InitKeys({}) == {};
  }

  // ------------------------------------------------------ loops over a store

  /** The `for key, value in bag_state.items()` loop that adds up the slots in scope. */
  method SumSlots(m: Bag, scope: Scope) returns (total: int)
    ensures total == Sum(m, scope)
  {
    total := 0;
    var rest := m.Keys;
    while rest != {}
      invariant rest <= m.Keys
      invariant total == SumOver(m, SlotKeys(m) - rest, scope)
      decreases rest
    {
      var k :| k in rest;
      ghost var seen := SlotKeys(m) - rest;
      if k.Slot? && (scope.AllItems? || k.item == scope.item) {
        total := total + m[k];
      }
      rest := rest - {k};
      if k.Slot? {
        assert SlotKeys(m) - rest == seen + {k};
        SumOverRemove(m, seen + {k}, k, scope);
        assert seen + {k} - {k} == seen;
      } else {
        assert SlotKeys(m) - rest == seen;
      }
    }
    assert SlotKeys(m) - rest == SlotKeys(m);
  }

  /** The `item_totals` loop: the total of every item that has a slot key. */
  method SlotTotals(m: Bag) returns (totals: map<Id, int>)
    ensures totals.Keys == SlotItems(m)
    ensures forall i | i in totals :: totals[i] == Total(m, i)
  {
    totals := map[];
    var rest := m.Keys;
    while rest != {}
      invariant rest <= m.Keys
      invariant totals.Keys == set k | k in SlotKeys(m) - rest :: k.item
      invariant forall i | i in totals :: totals[i] == SumOver(m, SlotKeys(m) - rest, OnlyItem(i))
      decreases rest
    {
      var k :| k in rest;
      ghost var seen := SlotKeys(m) - rest;
      ghost var before := totals;
      if k.Slot? {
        if k.item !in totals {
          forall s | s in seen ensures Contribution(m, s, OnlyItem(k.item)) == 0 {
            assert s.item in before.Keys;
          }
          SumOverZero(m, seen, OnlyItem(k.item));
          totals := totals[k.item := 0];
        }
        totals := totals[k.item := totals[k.item] + m[k]];
      }
      rest := rest - {k};
      if k.Slot? {
        assert SlotKeys(m) - rest == seen + {k};
        assert seen + {k} - {k} == seen;
        forall i | i in totals ensures totals[i] == SumOver(m, seen + {k}, OnlyItem(i)) {
          SumOverRemove(m, seen + {k}, k, OnlyItem(i));
        }
      } else {
        assert SlotKeys(m) - rest == seen;
      }
    }
    assert SlotKeys(m) - rest == SlotKeys(m);
  }

  /** A copy of the store updated with the records, one at a time. */
  method ApplyRecords(m: Bag, recs: seq<Record>) returns (r: Bag)
    ensures r == WithRecords(m, recs)
  {
    r := m;
    for j := 0 to |recs|
      invariant r == WithRecords(m, recs[..j])
    {
      r := r[SlotKey(recs[j]) := recs[j].num];
      assert recs[..j + 1][..j] == recs[..j];
    }
    assert recs[..|recs|] == recs;
  }

  /** The `for item_id, total in item_totals.items()` loop writing baselines. */
  method ApplyBaselines(m: Bag, t: map<Id, int>) returns (r: Bag)
    ensures r == WithBaselines(m, t)
  {
    r := m;
    var rest := t.Keys;
    ghost var done: map<Id, int> := map[];
    assert InitKeys({}) == {};
    while rest != {}
      invariant rest <= t.Keys
      invariant done.Keys == t.Keys - rest
      invariant forall j | j in done :: done[j] == t[j]
      invariant r == WithBaselines(m, done)
      decreases rest
    {
      var i :| i in rest;
      WithBaselinesAdd(m, done, i, t[i]);
      r := r[Init(i) := t[i]];
      done := done[i := t[i]];
      rest := rest - {i};
    }
    assert done == t;
  }
}
