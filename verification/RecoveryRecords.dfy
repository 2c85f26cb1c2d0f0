/**
 What recovery knows about blocks, and how a mirror replays published changes.
 */
module RecoveryRecords {
  import opened Prelude

  /** The recoverable half of a block record: complete DRAM slots, disk slots, position. */
  datatype Rec = Rec(g2: Option<seq<Slot>>, g3: Option<seq<nat>>, position: int)

  type Table = map<BlockKey, Rec>
  type Change = (BlockKey, Rec)

  predicate Names(rec: Rec) { rec.g2.Some? || rec.g3.Some? }

  /** A record that names no slot takes its key out. */
  function Play(table: Table, change: Change): Table {
    if Names(change.1) then table[change.0 := change.1] else table - {change.0}
  }

  function Replay(table: Table, changes: seq<Change>): Table {
    if changes == [] then table else Play(Replay(table, changes[..|changes| - 1]), changes[|changes| - 1])
  }

  lemma ReplayAppend(table: Table, changes: seq<Change>, change: Change)
    ensures Replay(table, changes + [change]) == Play(Replay(table, changes), change)
  {
    assert (changes + [change])[..|changes|] == changes;
  }

  lemma {:induction false} ReplayFirst(table: Table, changes: seq<Change>)
    requires changes != []
    ensures Replay(table, changes) == Replay(Play(table, changes[0]), changes[1..])
  {
    var last := |changes| - 1;
    if last > 0 {
      ReplayFirst(table, changes[..last]);
      assert changes[..last][1..] == changes[1..][..last - 1];
    }
  }
}
