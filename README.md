# Inventory delta tracking of the drop tracker

This project models the inventory-tracking engine of `index.py`. The engine
reads item records out of chunks of the game log and keeps a store,
`bag_state`. The store holds two kinds of key:

- `Slot(page, slot, item)`: the quantity in one bag slot;
- `Init(item)`: a per-item baseline.

From the store, the engine reports signed per-item changes: gains are drops,
losses are consumption. The model is one class, `Tracker.BagTracker`. Its
fields are:

- the store;
- the five initialization flags;
- the session counters `is_in_map`, `map_count`, `drop_list`,
  `drop_list_all` and `pending_items`;
- the exclusion list.

Its methods are the engine's functions. Each method's loops live in a
module-level method that is proved against a specification function. The
modules are:

- `Records`: a chunk is already-extracted data. It has three record lists,
  each record being `(page, slot, item, num)`:
  - Modfy records matched by the patterns at index.py:240 and 444, which need
    two bracket tags before GameLog;
  - Modfy records matched by the pattern at index.py:367. That pattern needs
    one or more bracket tags before GameLog, so it also matches every record
    of the first list;
  - InitBagData records.

  It also has the login-marker boolean and the two map-change booleans.
- `Store`: the store and the ghost slot sums over it. `Total(m, i)` is an
  item's slot total and `GrandTotal(m)` the total over every slot. The module
  also holds record writing (`WithRecords`) and baseline writing
  (`WithBaselines`, `Rebase`), with the loops that compute them.
- `Reconcile`: `detect_bag_changes` as the functions `Reconciled` and
  `ReconcileChanges`, the gains-only legacy scanner as `LegacyDrops`, the
  loops that compute both, and the lemmas relating them.
- `Snapshot`: the explicit snapshot of `process_initialization`, the implicit
  bootstrap of `initialize_bag_state` and `reset_map_baseline`.
- `Dispatch`: which detector `scan_for_bag_changes` runs for a given state of
  the flags, and how the flags move over a sequence of chunks.
- `Drops`: the consolidation and counter routing of `process_drops`.
- `Tracker`: the class.

## Behaviour as written

The model follows the code, including where the code does something other
than what its comments say:

- `initialize_bag_state` assigns `initialization_complete = True` at
  index.py:271, but the name is missing from its `global` line (index.py:226).
  The module flag therefore stays False. After an implicit bootstrap, and
  after the login-marker branch, every later chunk takes the legacy path
  rather than the reconciler, until a snapshot is requested or tracking is
  reset (`Dispatch.FirstScanLeadsToLegacy`). A snapshot already awaited at
  that point still succeeds on a dump of 20 or more records.
- While a snapshot is awaited but the chunk holds fewer than 20 InitBagData
  records, the chunk is scanned as if no snapshot had been requested
  (`Dispatch.AwaitingFallsThrough`).
- `process_initialization` writes as each item's baseline the sum of its
  records, not the sum of its final slots. A slot dumped twice is counted
  twice (`Snapshot.DuplicateSlotCountsTwice`). With distinct slots the two
  sums agree (`Snapshot.SnapshotBaselinesMatch`). Its `if matches:` test
  always holds, because at least 20 matches are there.
- Slot keys are only ever added or overwritten; only a clear removes them. A
  slot holding 0 is still a key (`Store.WithRecordsKeys`).
- The legacy scanner's `sum(previous_totals.values())` is the sum of the
  per-item totals. The model computes it over the slots directly, which
  gives the same number.

## Model

| member | source | states |
|---|---|---|
| Records.NetOfAppend | index.py:605-612 | the net amount of an item over two batches of events is the sum of its net amounts over each |
| Records.NetOfAbsent | index.py:605-612 | a batch that never names an item gives it a net amount of 0 |
| Store.Total | index.py:404-410 | defines an item's current total: the sum of the quantities of its slot keys, `init:` keys skipped |
| Store.GrandTotal | index.py:490 | defines the sum over every slot key, whatever its item, the value `sum(...values())` gives |
| Store.SumUpdate | index.py:404-410 | overwriting one key moves a slot sum by exactly that key's old and new contributions |
| Store.SumSameSlots | index.py:404-410 | two stores with the same slots have the same slot sums, whatever their baselines |
| Store.NoSlotsNoTotal | index.py:404-410 | an item with no slot key has a slot total of 0 |
| Store.WithRecords | index.py:382-386 | defines the store after each record's quantity is written into its slot, in order; the same writes are index.py:245-251 and 466-474 |
| Store.WithRecordsKeys | index.py:382-386 | writing records keeps every old key and adds exactly the slot keys the records name; a quantity of 0 still leaves its key present |
| Store.WithRecordsFrame | index.py:382-386 | a key no record names, baselines included, is neither added, removed nor changed |
| Store.WithRecordsWritten | index.py:382-386 | the value of a key that the records name depends on the records alone, not on the store they are written into |
| Store.LastWriteWins | index.py:382-386 | a slot holds the quantity of the last record that names it |
| Store.WithRecordsIdempotent | index.py:382-386 | writing a chunk's records a second time changes nothing |
| Store.TotalUntouched | index.py:382-386 | writing records leaves the slot total of an item they do not name as it was |
| Store.WithBaselines | index.py:336-338 | defines the store after `bag_state[f"init:{item}"] = total` for every entry of a totals map; the same loop is index.py:688-690 |
| Store.Rebase | index.py:418-420 | defines the store after each item of a set gets its current slot total as its baseline |
| Store.WithBaselinesSpec | index.py:336-338 | writing baselines keeps every slot and every slot total, sets the baselines it names and leaves every other baseline, present or absent, as it was |
| Store.RebaseSpec | index.py:418-420 | rebasing a set of items gives each of them its slot total as its baseline and changes nothing else |
| Store.WithBaselinesAdd | index.py:336-338 | writing one more baseline is one more map update |
| Store.RebaseAdd | index.py:418-420 | rebasing one more item is one more `init:` write of its slot total |
| Store.RebaseNothing | index.py:418-420 | rebasing no items leaves the store as it was |
| Store.SumSlots | index.py:404-410 | the slot-summing loop returns the sum of the slots in scope: one item's slots, or every slot |
| Store.SlotTotals | index.py:677-685 | the totals loop gives exactly the items that have a slot key, each with its slot total |
| Store.ApplyRecords | index.py:245-251 | the record loop leaves the store with the records written in order |
| Store.ApplyBaselines | index.py:688-690 | the `init:` loop leaves the store with exactly those baselines written |
| Reconcile.SlotChange | index.py:381-393 | defines `slot_changes[item]`: the sum of `count - prev_count` over the item's records, each read against the store the earlier records left |
| Reconcile.ItemOrder | index.py:389-391 | defines the insertion order of the `slot_changes` keys: the items in order of first appearance |
| Reconcile.Net | index.py:397-415 | defines `net_change`: the slot total after the chunk minus the old baseline, 0 when absent |
| Reconcile.Emits | index.py:397-415 | defines when an item is reported: its slot change is non-zero and its net change is non-zero |
| Reconcile.Changes | index.py:396-416 | defines the events of the emission loop over a sequence of items, in that order |
| Reconcile.Emitted | index.py:415-420 | defines the items the emission loop rebases: those that are reported |
| Reconcile.Reconciled | index.py:377-422 | defines the store `detect_bag_changes` leaves: the records written and every reported item rebased |
| Reconcile.ReconcileChanges | index.py:377-422 | defines the events `detect_bag_changes` returns: the emission loop over the items in order of first appearance |
| Reconcile.ItemOrderSpec | index.py:389-396 | the order of the `slot_changes` keys holds each item of the chunk exactly once and no other |
| Reconcile.SlotChangeTelescopes | index.py:377-393 | an item's accumulated slot change equals how far its slot total moved over the chunk |
| Reconcile.ChangesSpec | index.py:396-416 | the emission loop reports each item at most once: reported items are exactly those whose slots moved and whose total differs from the baseline, each with net = slot total minus baseline |
| Reconcile.ChangesNet | index.py:396-416 | the net amount reported for an item is its net change when reported and 0 otherwise |
| Reconcile.ReconcileEvents | index.py:396-416 | every event of `detect_bag_changes` names a chunk item, has a non-zero net equal to its slot total after the chunk minus its old baseline (0 when absent), and no item appears twice; every item that qualifies is reported |
| Reconcile.ReconciledBaselines | index.py:396-420 | after `detect_bag_changes`, an item whose accumulated slot change is non-zero has its baseline equal to its slot total |
| Reconcile.ReconciledFrame | index.py:382-420 | slot keys the chunk does not name, and baselines of items not reported, are unchanged |
| Reconcile.ReconciledLastWrite | index.py:382-386 | after `detect_bag_changes` each named slot holds its last record's quantity |
| Reconcile.ReconciledReplay | index.py:382-386 | writing the chunk's records again into the reconciled store changes nothing |
| Reconcile.QuietChanges | index.py:396-416 | when no visited item qualifies, nothing is reported |
| Reconcile.ReconcileIdempotent | index.py:377-420 | the identical chunk scanned a second time reports no events and leaves the store as it was |
| Reconcile.ReconcileConservesItem | index.py:377-420 | for an item whose baseline matched its total, the net reported is exactly how far its slot total moved, and afterwards its baseline again matches its total |
| Reconcile.RunConserves | index.py:377-420 | over any number of chunks, the nets reported for such an item add up to how far its total moved, and its baseline stays equal to its total |
| Reconcile.FirstObserved | index.py:489-493 | defines the first observed snapshot: the totals before sum to 0 and the totals after are positive |
| Reconcile.Rises | index.py:495-500 | defines the legacy drops outside a first snapshot: once per item, every positive rise of a slot total, and nothing else |
| Reconcile.LegacyDrops | index.py:453-505 | defines what the legacy scanner returns: nothing on a first observed snapshot, otherwise the rises |
| Reconcile.NetOfUnique | index.py:496-500 | in a batch with distinct items, an item's net amount is the amount of its one event |
| Reconcile.LegacyAgreesOnGains | index.py:453-505 | outside a first observed snapshot, and for an item whose baseline matched its total, the legacy scanner reports the reconciler's net when positive and nothing otherwise |
| Reconcile.LegacyReportsChunkItems | index.py:496-500 | the legacy scanner reports only items the chunk names |
| Reconcile.ItemOrderStep | index.py:389-390 | one more record appends its item to the order exactly when the item is new |
| Reconcile.SlotChangeAppend | index.py:381-393 | one more record moves only its own item's slot change, by its count minus the slot's previous count |
| Reconcile.SlotChangeStep | index.py:381-393 | one pass of the accumulation body keeps the accumulated slot changes equal to their specification |
| Reconcile.AccumulateRecord | index.py:378-393 | one record of the first loop writes its slot and adds its change to its item |
| Reconcile.AccumulateSlotChanges | index.py:377-393 | the first loop leaves the records written, the items in order of first appearance, and each item's accumulated slot change |
| Reconcile.EmittedStep | index.py:396-420 | visiting one more item adds it to the rebased items exactly when it is reported |
| Reconcile.ChangesStep | index.py:396-416 | visiting one more item appends its event exactly when it is reported |
| Reconcile.NotYetRebased | index.py:400-410 | an item not yet visited still has its baseline from before the chunk and its slot total from after it |
| Reconcile.EmitItem | index.py:397-420 | one item of the second loop is reported and rebased exactly when its slots moved and its total differs from its baseline |
| Reconcile.EmitChanges | index.py:396-420 | the second loop returns the events of the qualifying items in order and rebases exactly those items |
| Reconcile.ReconcilePass | index.py:370-422 | `detect_bag_changes` on an initialized store, on an empty chunk included, leaves `Reconciled` and returns `ReconcileChanges` |
| Reconcile.Gains | index.py:496-500 | the comparison loop reports, once per item, every positive rise of the current total over the previous total (0 when absent), and nothing else |
| Reconcile.CountIsTotal | index.py:497 | `totals.get(i, 0)` is the slot total of any item |
| Reconcile.SlotItemsGrow | index.py:466-474 | writing records never takes an item's slot keys away |
| Reconcile.GainsAreRises | index.py:453-500 | the rises found between the two total maps are the rises of the slot totals |
| Reconcile.LegacyPass | index.py:447-505 | the legacy scanner leaves the store updated with the chunk's records in every case; it reports nothing for an empty chunk or a first observed snapshot, and otherwise the positive rises of the slot totals |
| Snapshot.RecordTotals | index.py:319-333 | defines `item_totals`: per item, the sum of the quantities of its records |
| Snapshot.SnapshotBag | index.py:316-338 | defines the store a successful snapshot leaves: cleared, the record slots written, and each record sum written as its item's baseline |
| Snapshot.RecordTotalsKeys | index.py:330-333 | `item_totals` has exactly the items of the records |
| Snapshot.SnapshotContents | index.py:316-338 | the snapshot store holds exactly the record slots plus one baseline per record item; each slot holds its last record's quantity and each baseline its item's record sum |
| Snapshot.RecordTotalsAreSlotTotals | index.py:322-333 | with distinct slots, an item's record sum is its slot total |
| Snapshot.SnapshotBaselinesMatch | index.py:316-338 | with distinct slots, every baseline of the snapshot store equals its item's slot total |
| Snapshot.DuplicateSlotCountsTwice | index.py:322-338 | a slot dumped twice gets a baseline of twice its quantity but a slot total of once |
| Snapshot.MapBaselineReset | index.py:676-690 | defines the store after `reset_map_baseline`: every item with a slot key rebased to its slot total |
| Snapshot.Bootstrapped | index.py:245-268 | defines the store after the implicit bootstrap: the records written, then every item with a slot key rebased |
| Snapshot.MapBaselineResetSpec | index.py:676-690 | `reset_map_baseline` keeps every slot, gives each item with a slot key its slot total as baseline, and leaves the baselines of the other items, present or absent, as they were |
| Snapshot.SessionIsolation | index.py:699-729 | after the reset on entering a map, the reconciler reports for an item exactly how far its total moved since the reset |
| Snapshot.ReadSnapshotStep | index.py:322-333 | one more dumped record is one slot write and one addition to its item's total |
| Snapshot.ReadSnapshot | index.py:316-333 | the record loop on a cleared store writes every slot and sums each item's records |
| Dispatch.ScanPath | index.py:424-442 | defines which branch `scan_for_bag_changes` takes for the flags and the chunk: snapshot, reconciler, login reset, bootstrap or legacy |
| Dispatch.ScanStatus | index.py:424-505 | defines the flags after one scan along each branch; the bootstrap leaves `initialization_complete` as it was |
| Dispatch.ScanBag | index.py:424-505 | defines the store after one scan along each branch |
| Dispatch.ScanOutput | index.py:424-505 | defines what one scan returns along each branch: the reconciler's events, the legacy drops, or nothing |
| Dispatch.StatusAfter | index.py:424-505 | defines the flags after a sequence of chunks scanned one after another |
| Dispatch.PathsOf | index.py:424-441 | the routes of a sequence of chunks: the route of each chunk is `ScanPath` of the flags the chunks before it left |
| Dispatch.AwaitingFallsThrough | index.py:429-435 | while a requested snapshot is too small, the chunk is routed as if none had been requested, to the reconciler when fully initialized |
| Dispatch.LegacyTrapHolds | index.py:429-441 | with no snapshot awaited, `initialization_complete` False and `first_scan` False, every later chunk takes the legacy path and the flags never move |
| Dispatch.FirstScanLeadsToLegacy | index.py:226-272 | after the login reset or the implicit bootstrap, every later chunk takes the legacy path; only the bootstrap sets `bag_initialized` |
| Dispatch.ReconcilingHolds | index.py:429-435 | once fully initialized with no snapshot awaited, every later chunk goes to the reconciler and the flags never move |
| Dispatch.SnapshotLeadsToReconcile | index.py:341-346 | a successful snapshot hands every later chunk to the reconciler |
| Drops.Consolidate | index.py:606-612 | defines `consolidated_changes`: each item's amounts added up |
| Drops.ConsolidateKeys | index.py:606-612 | `consolidated_changes` has exactly the items of the batch |
| Drops.ConsolidateStep | index.py:607-612 | one more event adds its amount to its item |
| Drops.ConsolidateIsNet | index.py:606-612 | consolidation keeps each item's net amount |
| Drops.AddCounts | index.py:615-642 | defines a counter after `counter[i] += amount` (from 0 when absent) for each item of a set |
| Drops.Unknown | index.py:617-628 | defines the items with no known name, which are queued as pending |
| Drops.Tallied | index.py:630-642 | defines the items with a known name that is not excluded, which are counted as drops |
| Drops.AddCountsNothing | index.py:636-642 | adding nothing leaves a counter as it was |
| Drops.NoDropsNoCounts | index.py:730 | an empty batch leaves every counter as it was |
| Drops.AddCountsStep | index.py:636-638 | one more item added is one more `+=` on the counter |
| Drops.CounterStep | index.py:615-642 | routing one more item updates a counter exactly when the item is one that counter takes |
| Drops.DropsAccounted | index.py:615-642 | an item's net amount moves its pending count when its name is unknown, its drop counts when its name is known and not excluded, and neither when excluded |
| Drops.ConsolidateDrops | index.py:606-612 | the consolidation loop computes `Consolidate` |
| Drops.RouteItem | index.py:615-642 | one item of the routing loop goes to the pending queue, nowhere, or both drop counters |
| Drops.RouteDrops | index.py:615-642 | the routing loop leaves the pending queue and both drop counters with each consolidated amount added where its name sends it |
| Tracker.BagTracker.constructor | index.py:60-67 | the store is empty, `first_scan` is True, the other flags are False and the counters are empty or 0 (also index.py:598-599, 795-803) |
| Tracker.BagTracker.ResetMapBaseline | index.py:672-692 | the store becomes `MapBaselineReset` of the old store |
| Tracker.BagTracker.StartInitialization | index.py:276-296 | refused, changing no flag, while an initialization is in progress; otherwise sets `awaiting_initialization` and `initialization_in_progress` |
| Tracker.BagTracker.ProcessInitialization | index.py:298-356 | with no snapshot awaited or fewer than 20 records: returns False and changes nothing; otherwise the store becomes the snapshot store, `bag_initialized` and `initialization_complete` are set, the two waiting flags cleared, and it returns True |
| Tracker.BagTracker.InitializeBagState | index.py:224-274 | acts only while `first_scan` holds and always clears it: a login marker clears the store; more than 10 records are written, rebased and set `bag_initialized`; otherwise False with the store unchanged; `initialization_complete` is never set |
| Tracker.BagTracker.DetectBagChanges | index.py:358-422 | nothing reported and the store unchanged while not initialized; otherwise the reconciler's events and store |
| Tracker.BagTracker.LegacyScan | index.py:443-505 | the store updated with the chunk's records and the legacy drops |
| Tracker.BagTracker.ScanForBagChanges | index.py:424-505 | the flags, store and events after one chunk are those of the path `Dispatch.ScanPath` selects |
| Tracker.BagTracker.ProcessDrops | index.py:601-642 | the pending queue and both drop counters after one batch, as `RouteDrops` states them |
| Tracker.BagTracker.ChangeMap | index.py:698-713 | entering a map sets `is_in_map`, empties `drop_list`, counts the map and resets the baselines; exiting clears `is_in_map` |
| Tracker.BagTracker.DealChange | index.py:694-734 | the map change, then the baseline reset, then the scan of the chunk against the reset store, then the counters; with no name table, nothing after the map change |
| Tracker.BagTracker.TallyDrops | index.py:730-734 | a non-empty batch is counted and marks the tracker as in a map; an empty one changes nothing |
| Tracker.BagTracker.ResetTracking | index.py:1055-1087 | when confirmed: the store, flags, drop counters and map count return to their initial values; the pending queue and `is_in_map` are kept; otherwise nothing changes |

## Left out

- The Tkinter interface (`App` widgets, `reshow`, `messagebox`, `root.after`) is presentation. The confirmation dialog of `reset_tracking` becomes the `confirmed` parameter.
- File I/O is left out: `config.json`, `drop.txt`, `translation_mapping.json`, the data-file set-up and `update_full_table.py`. Loading `full_table.json` becomes the `names` parameter of `DealChange`, with `None` when it cannot be loaded.
- Regex matching is left out. The records and the marker booleans are inputs of the chunk. `detect_map_change` (index.py:507-516) is two `re.search` tests, so its results are the chunk's `enteringMap` and `exitingMap`.
- Prices, `income`, `income_all`, the tax factor and elapsed time are floating point and are left out, along with `get_price_info`. The `[NETWORK]` diagnostic prints of `process_drops` are left out; unknown ids are queued in `pending_items`, which is modelled.
- Threading, the polling loop and window and process discovery are concurrency and I/O. Each chunk is processed to completion before the next one.
- `debug_log_format` is diagnostic printing and is left out.
- The two Modfy record lists of a chunk are independent inputs. The model does not state that the second list holds every record of the first, as the two patterns guarantee in the source.
- Reconcile.LegacyPass: the order of the legacy drops (the insertion order of the copied `bag_state`) is not modelled. The drops are characterised as a set of events with distinct items.
- Drops.RouteDrops: the dictionaries' insertion order is not modelled. Only the counter values are.
