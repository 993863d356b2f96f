/** The data extracted from one chunk of the game log, and the change events the
    tracker emits. Regular-expression matching is not modelled: a chunk arrives
    as the records and marker booleans the tracker's patterns would find in it. */
module Records {

  datatype Option<T> = None | Some(value: T)

  /** Page, slot and item identifiers are the digit strings captured from the log. */
  type Id = string

  /** One `PageId = .. SlotId = .. ConfigBaseId = .. Num = ..` match. */
  datatype Record = Record(page: Id, slot: Id, item: Id, num: nat)

  /** A signed per-item change event: positive is a gain, negative is consumption. */
  datatype Change = Change(item: Id, net: int)

  /** Everything the tracker reads from one chunk of appended log text. */
  datatype Chunk = Chunk(
    loginMarker: bool,             // "PlayerInitPkgMgr" or "Login2Client" occurs
    legacyModify: seq<Record>,     // Modfy records matched by the pattern that needs two bracket tags before GameLog
    slotModify: seq<Record>,       // Modfy records matched by the pattern that needs one or more bracket tags
                                   // before GameLog, which also matches every legacyModify record
    snapshot: seq<Record>,         // InitBagData records of a full bag dump
    enteringMap: bool,             // the hub-to-map scene change pattern occurs
    exitingMap: bool)              // the back-to-hub scene change pattern occurs

  /** `d.get(k, 0)` on the store or on a per-item counter dictionary. */
  function Get<K>(d: map<K, int>, k: K): int {
    if k in d then d[k] else 0
  }

  function RecordItems(recs: seq<Record>): set<Id> {
    set r | r in recs :: r.item
  }

  function Elements(s: seq<Id>): set<Id> {
    set x | x in s
  }

  predicate Distinct(s: seq<Id>) {
    forall a, b | 0 <= a < b < |s| :: s[a] != s[b]
  }

  /** No item is reported twice in one batch of change events. */
  predicate DistinctItems(changes: seq<Change>) {
    forall a, b | 0 <= a < b < |changes| :: changes[a].item != changes[b].item
  }

  /** The sum of the amounts reported for `item` in a batch of change events. */
  function NetOf(changes: seq<Change>, item: Id): int
    decreases |changes|
  {
    if changes == [] then 0
    else
      var last := changes[|changes| - 1];
      NetOf(changes[..|changes| - 1], item) + (if last.item == item then last.net else 0)
  }

  lemma {:induction false} NetOfAppend(a: seq<Change>, b: seq<Change>, item: Id)
    ensures NetOf(a + b, item) == NetOf(a, item) + NetOf(b, item)
    decreases |b|
  {
    if b == [] {
      assert a + b == a;
    } else {
      var b' := b[..|b| - 1];
      assert (a + b)[..|a + b| - 1] == a + b';
      NetOfAppend(a, b', item);
    }
  }

  /** A batch with no event for `item` nets to zero for it. */
  lemma {:induction false} NetOfAbsent(changes: seq<Change>, item: Id)
    requires forall c | c in changes :: c.item != item
    ensures NetOf(changes, item) == 0
    decreases |changes|
  {
    if changes != [] {
      NetOfAbsent(changes[..|changes| - 1], item);
    }
  }
}
