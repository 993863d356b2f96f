/** Which detector `scan_for_bag_changes` (index.py:424-505) runs on a chunk,
    how each choice moves the initialization flags, and what each leaves in
    the store and returns. */
module Dispatch {
  import opened Records
  import opened Store
  import opened Reconcile
  import opened Snapshot

  /** The five module-level initialization flags. */
  datatype Status = Status(
    bagInitialized: bool,
    firstScan: bool,
    awaitingInitialization: bool,
    initializationComplete: bool,
    initializationInProgress: bool)

  /** The route a chunk takes through `scan_for_bag_changes`. */
  datatype Path =
    | SnapshotPath      // process_initialization succeeded
    | ReconcilePath     // detect_bag_changes
    | LoginResetPath    // initialize_bag_state saw the login marker
    | BootstrapPath     // initialize_bag_state took the chunk as a snapshot
    | LegacyPath        // the gains-only scanner

  function ScanPath(s: Status, c: Chunk): Path {
    if s.awaitingInitialization && |c.snapshot| >= SnapshotThreshold then SnapshotPath
    else if s.bagInitialized && s.initializationComplete then ReconcilePath
    else if !s.bagInitialized && s.firstScan && c.loginMarker then LoginResetPath
    else if !s.bagInitialized && s.firstScan && |c.legacyModify| > BootstrapThreshold then BootstrapPath
    else LegacyPath
  }

  /** The flags after one scan. On the bootstrap path the source's
      `initialization_complete = True` binds a local name, so the flag keeps
      its value; a failed `initialize_bag_state` still clears `first_scan`. */
  function ScanStatus(s: Status, c: Chunk): Status {
    match ScanPath(s, c)
    case SnapshotPath =>
      s.(bagInitialized := true, initializationComplete := true,
         awaitingInitialization := false, initializationInProgress := false)
    case ReconcilePath => s
    case LoginResetPath => s.(firstScan := false)
    case BootstrapPath => s.(firstScan := false, bagInitialized := true)
    case LegacyPath => if s.bagInitialized then s else s.(firstScan := false)
  }

  /** The store after one scan. */
  ghost function ScanBag(s: Status, m: Bag, c: Chunk): Bag {
    match ScanPath(s, c)
    case SnapshotPath => SnapshotBag(c.snapshot)
    case ReconcilePath => Reconciled(m, c.slotModify)
    case LoginResetPath => map[]
    case BootstrapPath => Bootstrapped(m, c.legacyModify)
    case LegacyPath => WithRecords(m, c.legacyModify)
  }

  /** What one scan may return. */
  ghost predicate ScanOutput(s: Status, m: Bag, c: Chunk, drops: seq<Change>) {
    match ScanPath(s, c)
    case ReconcilePath => drops == ReconcileChanges(m, c.slotModify)
    case LegacyPath => LegacyDrops(m, c.legacyModify, drops)
    case _ => drops == []
  }

  /** The routes of a sequence of chunks scanned one after another. */
  function PathsOf(s: Status, cs: seq<Chunk>): (ps: seq<Path>)
    ensures |ps| == |cs|
    ensures forall j | 0 <= j < |cs| :: ps[j] == ScanPath(StatusAfter(s, cs[..j]), cs[j])
    decreases |cs|
  {
    if cs == [] then []
    else
      var init := cs[..|cs| - 1];
      PrefixesAgree(cs);
      PathsOf(s, init) + [ScanPath(StatusAfter(s, init), cs[|cs| - 1])]
  }

  /** The prefixes of all but the last chunk are prefixes of the whole. */
  lemma PrefixesAgree(cs: seq<Chunk>)
    requires cs != []
    ensures forall j | 0 <= j < |cs| - 1 :: cs[..|cs| - 1][..j] == cs[..j] && cs[..|cs| - 1][j] == cs[j]
  {
  }

  function StatusAfter(s: Status, cs: seq<Chunk>): Status
    decreases |cs|
  {
    if cs == [] then s else ScanStatus(StatusAfter(s, cs[..|cs| - 1]), cs[|cs| - 1])
  }

  /** While a requested snapshot is still too small, the chunk is scanned as if
      none had been requested (index.py:429-435): with the tracker fully
      initialized it still reaches the reconciler. */
  lemma AwaitingFallsThrough(s: Status, c: Chunk)
    requires s.awaitingInitialization && |c.snapshot| < SnapshotThreshold
    ensures ScanPath(s, c) == ScanPath(s.(awaitingInitialization := false), c)
    ensures ScanStatus(s, c) == ScanStatus(s.(awaitingInitialization := false), c).(awaitingInitialization := true)
    ensures s.bagInitialized && s.initializationComplete ==> ScanPath(s, c) == ReconcilePath
  {
  }

  /** Flags from which every chunk takes the legacy path. */
  predicate LegacyTrap(s: Status) {
    !s.awaitingInitialization && !s.initializationComplete && !s.firstScan
  }

  /** Once in the trap, every later chunk takes the legacy path and the flags
      never move, until a snapshot is requested or tracking is reset. */
  lemma {:induction false} LegacyTrapHolds(s: Status, cs: seq<Chunk>)
    requires LegacyTrap(s)
    ensures StatusAfter(s, cs) == s
    ensures forall j | 0 <= j < |cs| :: PathsOf(s, cs)[j] == LegacyPath
    decreases |cs|
  {
    if cs != [] {
      LegacyTrapHolds(s, cs[..|cs| - 1]);
    }
  }

  /** As written, the implicit bootstrap and the login reset both leave the
      tracker in the trap: `first_scan` is cleared while
      `initialization_complete` stays False, so every later chunk takes the
      legacy path rather than the reconciler. */
  lemma FirstScanLeadsToLegacy(s: Status, c: Chunk, cs: seq<Chunk>)
    requires ScanPath(s, c) == BootstrapPath || ScanPath(s, c) == LoginResetPath
    requires !s.awaitingInitialization && !s.initializationComplete
    ensures ScanStatus(s, c).bagInitialized == (ScanPath(s, c) == BootstrapPath)
    ensures forall j | 0 <= j < |cs| :: PathsOf(ScanStatus(s, c), cs)[j] == LegacyPath
  {
    LegacyTrapHolds(ScanStatus(s, c), cs);
  }

  /** Flags from which every chunk goes to the reconciler. */
  predicate Reconciling(s: Status) {
    s.bagInitialized && s.initializationComplete && !s.awaitingInitialization
  }

  lemma {:induction false} ReconcilingHolds(s: Status, cs: seq<Chunk>)
    requires Reconciling(s)
    ensures StatusAfter(s, cs) == s
    ensures forall j | 0 <= j < |cs| :: PathsOf(s, cs)[j] == ReconcilePath
    decreases |cs|
  {
    if cs != [] {
      ReconcilingHolds(s, cs[..|cs| - 1]);
    }
  }

  /** A successful snapshot hands every later chunk to the reconciler. */
  lemma SnapshotLeadsToReconcile(s: Status, c: Chunk, cs: seq<Chunk>)
    requires ScanPath(s, c) == SnapshotPath
    ensures Reconciling(ScanStatus(s, c))
    ensures forall j | 0 <= j < |cs| :: PathsOf(ScanStatus(s, c), cs)[j] == ReconcilePath
  {
    ReconcilingHolds(ScanStatus(s, c), cs);
  }
}
