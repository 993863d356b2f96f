/** The tracker's mutable state and the operations that update it in place:
    `bag_state`, the initialization flags and the session counters of
    index.py, with each operation proved against the specification functions
    of Store, Reconcile, Snapshot, Dispatch and Drops. */
module Tracker {
  import opened Records
  import opened Store
  import opened Reconcile
  import opened Snapshot
  import opened Dispatch
  import opened Drops

  class BagTracker {
    /** `bag_state`: slot keys `page:slot:item` and baseline keys `init:item`. */
    var bag: Bag
    var bagInitialized: bool
    var firstScan: bool
    var awaitingInitialization: bool
    var initializationComplete: bool
    var initializationInProgress: bool
    /** Session counters. */
    var isInMap: bool
    var mapCount: int
    var dropList: map<Id, int>
    var dropListAll: map<Id, int>
    var pendingItems: map<Id, int>
    /** Names whose drops are not counted. */
    var excludeList: seq<string>

    function CurrentStatus(): Status
      reads this`bagInitialized, this`firstScan, this`awaitingInitialization,
            this`initializationComplete, this`initializationInProgress
    {
      Status(bagInitialized, firstScan, awaitingInitialization, initializationComplete, initializationInProgress)
    }

    /** The module-level initial values (index.py:60-67, 795-803, 598-599). */
    constructor ()
      ensures bag == map[]
      ensures CurrentStatus() == Status(false, true, false, false, false)
      ensures !isInMap && mapCount == 0
      ensures dropList == map[] && dropListAll == map[] && pendingItems == map[] && excludeList == []
    {
      bag := map[];
      bagInitialized := false;
      firstScan := true;
      awaitingInitialization := false;
      initializationComplete := false;
      initializationInProgress := false;
      isInMap := false;
      mapCount := 0;
      dropList := map[];
      dropListAll := map[];
      pendingItems := map[];
      excludeList := [];
    }

    // ------------------------------------------------------- baselines

    /** `reset_map_baseline` (index.py:672-692). */
    method ResetMapBaseline()
      modifies this`bag
      ensures bag == MapBaselineReset(old(bag))
    {
      var totals := SlotTotals(bag);
      assert totals == map i | i in SlotItems(bag) :: Total(bag, i);
      bag := ApplyBaselines(bag, totals);
    }

    // --------------------------------------------------- initialization

    /** `start_initialization` (index.py:276-296): refused while one is in
        progress. */
    method StartInitialization() returns (started: bool)
      modifies this`awaitingInitialization, this`initializationInProgress
      ensures started == !old(initializationInProgress)
      ensures started ==> awaitingInitialization && initializationInProgress
      ensures !started ==> awaitingInitialization == old(awaitingInitialization) && initializationInProgress
    {
      if initializationInProgress {
        return false;
      }
      awaitingInitialization := true;
      initializationInProgress := true;
      return true;
    }

    /** `process_initialization` (index.py:298-356): a dump of at least 20
        InitBagData records replaces the store. */
    method ProcessInitialization(recs: seq<Record>) returns (done: bool)
      modifies this`bag, this`bagInitialized, this`awaitingInitialization,
               this`initializationComplete, this`initializationInProgress
      ensures done == (old(awaitingInitialization) && |recs| >= SnapshotThreshold)
      ensures !done ==> bag == old(bag) && CurrentStatus() == old(CurrentStatus())
      ensures done ==> bag == SnapshotBag(recs)
      ensures done ==> CurrentStatus() == old(CurrentStatus()).(
        bagInitialized := true, initializationComplete := true,
        awaitingInitialization := false, initializationInProgress := false)
    {
      if !awaitingInitialization || |recs| < SnapshotThreshold {
        return false;
      }
      bag := map[];
      var totals;
      bag, totals := ReadSnapshot(recs);
      bag := ApplyBaselines(bag, totals);
      // the source's `if matches:` holds here, as there are at least 20 records
      bagInitialized := true;
      initializationComplete := true;
      awaitingInitialization := false;
      initializationInProgress := false;
      return true;
    }

    /** `initialize_bag_state` (index.py:224-274), the implicit bootstrap. The
        source's `initialization_complete = True` binds a local name, so the
        flag is left as it was. */
    method InitializeBagState(c: Chunk) returns (handled: bool)
      modifies this`bag, this`bagInitialized, this`firstScan
      ensures !firstScan
      ensures handled == (old(firstScan) && (c.loginMarker || |c.legacyModify| > BootstrapThreshold))
      ensures !handled ==> bag == old(bag) && bagInitialized == old(bagInitialized)
      ensures handled && c.loginMarker ==> bag == map[] && bagInitialized == old(bagInitialized)
      ensures handled && !c.loginMarker ==> bag == Bootstrapped(old(bag), c.legacyModify) && bagInitialized
    {
      if !firstScan {
        return false;
      }
      firstScan := false;
      if c.loginMarker {
        bag := map[];
        return true;
      }
      if |c.legacyModify| > BootstrapThreshold {
        bag := ApplyRecords(bag, c.legacyModify);
        bagInitialized := true;
        ResetMapBaseline();
        return true;
      }
      return false;
    }

    // ---------------------------------------------------------- detectors

    /** `detect_bag_changes` (index.py:358-422). */
    method DetectBagChanges(recs: seq<Record>) returns (changes: seq<Change>)
      modifies this`bag
      ensures !bagInitialized ==> changes == [] && bag == old(bag)
      ensures bagInitialized ==> changes == ReconcileChanges(old(bag), recs) && bag == Reconciled(old(bag), recs)
    {
      if !bagInitialized {
        return [];
      }
      bag, changes := ReconcilePass(bag, recs);
    }

    /** The legacy scanner of `scan_for_bag_changes` (index.py:443-505). */
    method LegacyScan(recs: seq<Record>) returns (drops: seq<Change>)
      modifies this`bag
      ensures bag == WithRecords(old(bag), recs)
      ensures LegacyDrops(old(bag), recs, drops)
    {
      bag, drops := LegacyPass(bag, recs);
    }

    /** `scan_for_bag_changes` (index.py:424-505): the dispatcher. */
    method ScanForBagChanges(c: Chunk) returns (changes: seq<Change>)
      modifies this`bag, this`bagInitialized, this`firstScan, this`awaitingInitialization,
               this`initializationComplete, this`initializationInProgress
      ensures CurrentStatus() == ScanStatus(old(CurrentStatus()), c)
      ensures bag == ScanBag(old(CurrentStatus()), old(bag), c)
      ensures ScanOutput(old(CurrentStatus()), old(bag), c, changes)
    {
      if awaitingInitialization {
        var done := ProcessInitialization(c.snapshot);
        if done {
          return [];
        }
      }
      if bagInitialized && initializationComplete {
        changes := DetectBagChanges(c.slotModify);
        return;
      }
      if !bagInitialized {
        var handled := InitializeBagState(c);
        if handled {
          return [];
        }
      }
      changes := LegacyScan(c.legacyModify);
    }

    // ------------------------------------------------------ session counters

    /** The counters part of `process_drops` (index.py:601-670). */
    method ProcessDrops(drops: seq<Change>, names: map<Id, string>)
      modifies this`dropList, this`dropListAll, this`pendingItems
      ensures var cons := Consolidate(drops);
        && pendingItems == AddCounts(old(pendingItems), cons, Unknown(cons, names))
        && dropList == AddCounts(old(dropList), cons, Tallied(cons, names, excludeList))
        && dropListAll == AddCounts(old(dropListAll), cons, Tallied(cons, names, excludeList))
    {
      var cons := ConsolidateDrops(drops);
      pendingItems, dropList, dropListAll :=
        RouteDrops(cons, names, excludeList, pendingItems, dropList, dropListAll);
    }

    /** The scene-change part of `deal_change` (index.py:698-713): entering a
        map starts a new map session and resets the baselines before the
        chunk's bag changes are scanned. */
    method ChangeMap(entering: bool, exiting: bool)
      modifies this`bag, this`isInMap, this`dropList, this`mapCount
      ensures bag == if entering then MapBaselineReset(old(bag)) else old(bag)
      ensures dropList == if entering then map[] else old(dropList)
      ensures mapCount == old(mapCount) + (if entering then 1 else 0)
      ensures isInMap == if exiting then false else if entering then true else old(isInMap)
    {
      if entering {
        isInMap := true;
        dropList := map[];
        mapCount := mapCount + 1;
        ResetMapBaseline();
      }
      if exiting {
        isInMap := false;
      }
    }

    /** `deal_change` (index.py:694-734) without prices, income and time.
        `names` is the id-to-name table of full_table.json, or None when it
        cannot be loaded, in which case the scan is skipped. */
    method DealChange(c: Chunk, names: Option<map<Id, string>>) returns (drops: seq<Change>)
      modifies this`bag, this`bagInitialized, this`firstScan, this`awaitingInitialization,
               this`initializationComplete, this`initializationInProgress,
               this`isInMap, this`mapCount, this`dropList, this`dropListAll, this`pendingItems
      ensures mapCount == old(mapCount) + (if c.enteringMap then 1 else 0)
      ensures isInMap == if names.Some? && drops != [] then true
                         else if c.exitingMap then false
                         else if c.enteringMap then true
                         else old(isInMap)
      ensures names.None? ==>
        && drops == [] && CurrentStatus() == old(CurrentStatus())
        && bag == (if c.enteringMap then MapBaselineReset(old(bag)) else old(bag))
        && dropList == (if c.enteringMap then map[] else old(dropList))
        && dropListAll == old(dropListAll) && pendingItems == old(pendingItems)
      ensures names.Some? ==>
        && CurrentStatus() == ScanStatus(old(CurrentStatus()), c)
        && bag == ScanBag(old(CurrentStatus()), if c.enteringMap then MapBaselineReset(old(bag)) else old(bag), c)
        && ScanOutput(old(CurrentStatus()), if c.enteringMap then MapBaselineReset(old(bag)) else old(bag), c, drops)
      ensures names.Some? ==>
        var cons := Consolidate(drops);
        && pendingItems == AddCounts(old(pendingItems), cons, Unknown(cons, names.value))
        && dropList == AddCounts(if c.enteringMap then map[] else old(dropList), cons, Tallied(cons, names.value, excludeList))
        && dropListAll == AddCounts(old(dropListAll), cons, Tallied(cons, names.value, excludeList))
    {
      ghost var s0 := CurrentStatus();
      ChangeMap(c.enteringMap, c.exitingMap);
      ghost var bag1, list1, all1, pending1 := bag, dropList, dropListAll, pendingItems;
      assert CurrentStatus() == s0;
      if names.None? {
        return [];
      }
      drops := ScanForBagChanges(c);
      assert CurrentStatus() == ScanStatus(s0, c) && bag == ScanBag(s0, bag1, c) && ScanOutput(s0, bag1, c, drops);
      TallyDrops(drops, names.value);
    }

    /** The `if drops:` block of `deal_change` (index.py:730-734): a batch of
        change events is counted, and a non-empty one marks the tracker as in a
        map. */
    method TallyDrops(drops: seq<Change>, names: map<Id, string>)
      modifies this`isInMap, this`dropList, this`dropListAll, this`pendingItems
      ensures isInMap == (drops != [] || old(isInMap))
      ensures var cons := Consolidate(drops);
        && pendingItems == AddCounts(old(pendingItems), cons, Unknown(cons, names))
        && dropList == AddCounts(old(dropList), cons, Tallied(cons, names, excludeList))
        && dropListAll == AddCounts(old(dropListAll), cons, Tallied(cons, names, excludeList))
    {
      if drops != [] {
        ProcessDrops(drops, names);
        if !isInMap {
          isInMap := true;
        }
      } else {
        NoDropsNoCounts(pendingItems, names, excludeList);
        NoDropsNoCounts(dropList, names, excludeList);
        NoDropsNoCounts(dropListAll, names, excludeList);
      }
    }

    /** `App.reset_tracking` (index.py:1055-1087); `confirmed` is the answer to
        the confirmation dialog. The pending queue and the in-map flag are not
        reset. */
    method ResetTracking(confirmed: bool)
      modifies this
      ensures !confirmed ==> unchanged(this)
      ensures confirmed ==> bag == map[] && CurrentStatus() == Status(false, true, false, false, false)
      ensures confirmed ==> dropList == map[] && dropListAll == map[] && mapCount == 0
      ensures isInMap == old(isInMap) && pendingItems == old(pendingItems) && excludeList == old(excludeList)
    {
      if confirmed {
        bag := map[];
        bagInitialized := false;
        initializationComplete := false;
        awaitingInitialization := false;
        initializationInProgress := false;
        firstScan := true;
        dropList := map[];
        dropListAll := map[];
        mapCount := 0;
      }
    }
  }
}
