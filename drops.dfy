/** The integer bookkeeping of `process_drops` (index.py:601-642): one batch of
    change events is consolidated per item, then each item's amount goes to
    the pending queue (no known name), nowhere (excluded name) or to both
    drop counters. */
module Drops {
  import opened Records

  /** `consolidated_changes`: the amounts of each item added up. */
  function Consolidate(drops: seq<Change>): map<Id, int>
    decreases |drops|
  {
    if drops == [] then map[]
    else
      var r := Consolidate(drops[..|drops| - 1]);
      var last := drops[|drops| - 1];
      r[last.item := Get(r, last.item) + last.net]
  }

  /** Every item of the batch, and no other, has a consolidated amount. */
  lemma {:induction false} ConsolidateKeys(drops: seq<Change>)
    ensures Consolidate(drops).Keys == set c | c in drops :: c.item
    decreases |drops|
  {
    if drops != [] {
      var init := drops[..|drops| - 1];
      ConsolidateKeys(init);
      assert (set c | c in drops :: c.item) == (set c | c in init :: c.item) + {drops[|drops| - 1].item};
    }
  }

  /** One more event adds its amount to its item. */
  lemma ConsolidateStep(pre: seq<Change>, c: Change)
    ensures Consolidate(pre + [c]) == Consolidate(pre)[c.item := Get(Consolidate(pre), c.item) + c.net]
  {
    assert (pre + [c])[..|pre|] == pre;
  }

  /** Consolidation keeps each item's net amount. */
  lemma {:induction false} ConsolidateIsNet(drops: seq<Change>, item: Id)
    ensures Get(Consolidate(drops), item) == NetOf(drops, item)
    decreases |drops|
  {
    if drops != [] {
      ConsolidateIsNet(drops[..|drops| - 1], item);
    }
  }

  /** `counter[i] += amounts[i]` (from 0 when absent) for every item of `items`. */
  function AddCounts(counter: map<Id, int>, amounts: map<Id, int>, items: set<Id>): map<Id, int>
    requires items <= amounts.Keys
  {
    map i | i in counter.Keys + items :: if i in items then Get(counter, i) + amounts[i] else counter[i]
  }

  /** Adding nothing leaves a counter as it was. */
  lemma AddCountsNothing(counter: map<Id, int>, amounts: map<Id, int>)
    ensures AddCounts(counter, amounts, {}) == counter
  {
  }

  /** An empty batch leaves every counter as it was. */
  lemma NoDropsNoCounts(counter: map<Id, int>, names: map<Id, string>, exclude: seq<string>)
    ensures AddCounts(counter, Consolidate([]), Unknown(Consolidate([]), names)) == counter
    ensures AddCounts(counter, Consolidate([]), Tallied(Consolidate([]), names, exclude)) == counter
  {
    assert Unknown(map[], names) == {} && Tallied(map[], names, exclude) == {};
    AddCountsNothing(counter, map[]);
  }

  /** Adding the amounts of one more item is one more `+=` on the counter
      reached so far. */
  lemma AddCountsStep(counter: map<Id, int>, amounts: map<Id, int>, items: set<Id>, i: Id, reached: map<Id, int>)
    requires items <= amounts.Keys && i in amounts && i !in items
    requires reached == AddCounts(counter, amounts, items)
    ensures AddCounts(counter, amounts, items + {i}) == reached[i := Get(reached, i) + amounts[i]]
  {
    var a, b := AddCounts(counter, amounts, items + {i}), reached[i := Get(reached, i) + amounts[i]];
    assert a.Keys == b.Keys;
  }

  /** Items without a known name: they are queued as pending. */
  function Unknown(amounts: map<Id, int>, names: map<Id, string>): set<Id> {
    set i | i in amounts && i !in names
  }

  /** Items with a known name that is not excluded: they are counted as drops. */
  function Tallied(amounts: map<Id, int>, names: map<Id, string>, exclude: seq<string>): set<Id> {
    set i | i in amounts && i in names && names[i] !in exclude
  }

  /** One more item of `selected` taken off `rest` is one more `+=`. */
  lemma CounterStep(counter0: map<Id, int>, amounts: map<Id, int>, selected: set<Id>,
                    rest: set<Id>, i: Id, reached: map<Id, int>)
    requires i in rest && rest <= amounts.Keys && selected <= amounts.Keys
    requires reached == AddCounts(counter0, amounts, selected - rest)
    ensures (if i in selected then reached[i := Get(reached, i) + amounts[i]] else reached)
         == AddCounts(counter0, amounts, selected - (rest - {i}))
  {
    if i in selected {
      assert selected - (rest - {i}) == (selected - rest) + {i};
      AddCountsStep(counter0, amounts, selected - rest, i, reached);
    } else {
      assert selected - (rest - {i}) == selected - rest;
    }
  }

  /** Every event of a batch is accounted for once: an item's net amount moves
      its pending count if its name is unknown, its drop count if its name is
      known and not excluded, and neither if its name is excluded. */
  lemma DropsAccounted(drops: seq<Change>, names: map<Id, string>, exclude: seq<string>,
                       pending: map<Id, int>, counter: map<Id, int>, item: Id)
    ensures var cons := Consolidate(drops);
      && Get(AddCounts(pending, cons, Unknown(cons, names)), item) - Get(pending, item)
           == (if item !in names then NetOf(drops, item) else 0)
      && Get(AddCounts(counter, cons, Tallied(cons, names, exclude)), item) - Get(counter, item)
           == (if item in names && names[item] !in exclude then NetOf(drops, item) else 0)
  {
    ConsolidateIsNet(drops, item);
  }

  // ------------------------------------------------------------- the loops

  /** The consolidation loop of `process_drops`. */
  method ConsolidateDrops(drops: seq<Change>) returns (cons: map<Id, int>)
    ensures cons == Consolidate(drops)
  {
    cons := map[];
    for j := 0 to |drops|
      invariant cons == Consolidate(drops[..j])
    {
      var c := drops[j];
      assert drops[..j + 1] == drops[..j] + [c];
      ConsolidateStep(drops[..j], c);
      if c.item !in cons {
        cons := cons[c.item := 0];
      }
      cons := cons[c.item := cons[c.item] + c.net];
    }
    assert drops[..|drops|] == drops;
  }

  /** The three counters once every item outside `rest` has been routed. */
  ghost predicate Routed(cons: map<Id, int>, names: map<Id, string>, exclude: seq<string>, rest: set<Id>,
                         pending0: map<Id, int>, list0: map<Id, int>, all0: map<Id, int>,
                         pending: map<Id, int>, list: map<Id, int>, all: map<Id, int>)
    requires rest <= cons.Keys
  {
    && pending == AddCounts(pending0, cons, Unknown(cons, names) - rest)
    && list == AddCounts(list0, cons, Tallied(cons, names, exclude) - rest)
    && all == AddCounts(all0, cons, Tallied(cons, names, exclude) - rest)
  }

  /** The body of the routing loop for the item `i`. */
  method RouteItem(cons: map<Id, int>, names: map<Id, string>, exclude: seq<string>,
                   ghost rest: set<Id>, i: Id,
                   ghost pending0: map<Id, int>, ghost list0: map<Id, int>, ghost all0: map<Id, int>,
                   pending: map<Id, int>, list: map<Id, int>, all: map<Id, int>)
    returns (pending': map<Id, int>, list': map<Id, int>, all': map<Id, int>)
    requires i in rest && rest <= cons.Keys
    requires Routed(cons, names, exclude, rest, pending0, list0, all0, pending, list, all)
    ensures Routed(cons, names, exclude, rest - {i}, pending0, list0, all0, pending', list', all')
  {
    CounterStep(pending0, cons, Unknown(cons, names), rest, i, pending);
    CounterStep(list0, cons, Tallied(cons, names, exclude), rest, i, list);
    CounterStep(all0, cons, Tallied(cons, names, exclude), rest, i, all);
    pending', list', all' := pending, list, all;
    if i !in names {
      // an unknown name is queued as pending (and the loop moves on)
      pending' := pending[i := Get(pending, i) + cons[i]];
    } else if names[i] !in exclude {
      list' := list[i := Get(list, i) + cons[i]];
      all' := all[i := Get(all, i) + cons[i]];
    }
  }

  /** The routing loop of `process_drops` over the consolidated amounts: the
      pending queue, the map's drop counter and the all-time drop counter as
      they are left. */
  method RouteDrops(cons: map<Id, int>, names: map<Id, string>, exclude: seq<string>,
                    pending0: map<Id, int>, list0: map<Id, int>, all0: map<Id, int>)
    returns (pending: map<Id, int>, list: map<Id, int>, all: map<Id, int>)
    ensures pending == AddCounts(pending0, cons, Unknown(cons, names))
    ensures list == AddCounts(list0, cons, Tallied(cons, names, exclude))
    ensures all == AddCounts(all0, cons, Tallied(cons, names, exclude))
  {
    pending, list, all := pending0, list0, all0;
    AddCountsNothing(pending, cons);
    AddCountsNothing(list, cons);
    AddCountsNothing(all, cons);
    var rest := cons.Keys;
    assert Unknown(cons, names) - rest == {} && Tallied(cons, names, exclude) - rest == {};
    while rest != {}
      invariant rest <= cons.Keys
      invariant Routed(cons, names, exclude, rest, pending0, list0, all0, pending, list, all)
      decreases rest
    {
      var i :| i in rest;
      pending, list, all := RouteItem(cons, names, exclude, rest, i, pending0, list0, all0, pending, list, all);
      rest := rest - {i};
    }
    assert Unknown(cons, names) - {} == Unknown(cons, names);
    assert Tallied(cons, names, exclude) - {} == Tallied(cons, names, exclude);
  }
}
