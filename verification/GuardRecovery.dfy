/**
 What a Guard carries from one primary to the next: the handback region in the pool's file, the
 mirror it keeps of the current primary, and the disk half it sets aside while it serves.
 */
module GuardRecovery {
  import opened Prelude
  import opened RecoveryRecords

  /** A core's own record; its DRAM half may be incomplete. */
  datatype Dram = Dram(slots: seq<Slot>, complete: bool)
  datatype Live = Live(dram: Option<Dram>, g3: Option<seq<nat>>, position: int)
  type LiveTable = map<BlockKey, Live>

  /** Disk slots and position of the blocks set aside. */
  type Kept = map<BlockKey, (seq<nat>, int)>

  // -- From a live table to what survives it.

  /** The projection a frame carries. */
  function Project(live: Live): Rec {
    Rec(if live.dram.Some? && live.dram.value.complete then Some(live.dram.value.slots) else None, live.g3,
        live.position)
  }

  /** `_is_recoverable`. */
  predicate IsRecoverable(live: Live) { live.g3.Some? || (live.dram.Some? && live.dram.value.complete) }

  /** What the mirror keeps when it adopts a closed core's table. */
  function Adopted(records: LiveTable): Table {
    map k | k in records && IsRecoverable(records[k]) :: Project(records[k])
  }

  /** The frames of a snapshot, for the keys in the order the table lists them. */
  function SnapshotFrames(records: LiveTable, keys: seq<BlockKey>): seq<Change>
    requires forall k :: k in keys ==> k in records
  {
    if keys == [] then []
    else
      var k, rest := keys[|keys| - 1], SnapshotFrames(records, keys[..|keys| - 1]);
      if IsRecoverable(records[k]) then rest + [(k, Project(records[k]))] else rest
  }

  lemma {:induction false} SnapshotPrefix(records: LiveTable, keys: seq<BlockKey>)
    requires forall k :: k in keys ==> k in records
    ensures Replay(map[], SnapshotFrames(records, keys))
      == map k | k in keys && IsRecoverable(records[k]) :: Project(records[k])
  {
    if keys != [] {
      var last, rest := keys[|keys| - 1], keys[..|keys| - 1];
      assert keys == rest + [last];
      SnapshotPrefix(records, rest);
      ReplayAppend(map[], SnapshotFrames(records, rest), (last, Project(records[last])));
    }
  }

  /** The region a table is written to replays to exactly what the mirror adopts: the two
      carriers cannot come to describe different pools. */
  lemma CarriersAgree(records: LiveTable, keys: seq<BlockKey>)
    requires forall k :: k in keys <==> k in records
    ensures Replay(map[], SnapshotFrames(records, keys)) == Adopted(records)
  {
    SnapshotPrefix(records, keys);
  }

  lemma AdoptedLift(table: Table)
    requires forall k :: k in table ==> Names(table[k])
    ensures Adopted(Lift(table)) == table
  {
  }

  /** Writing a mirror's own table out and reading it back changes nothing. */
  lemma MirrorRoundTrip(table: Table, keys: seq<BlockKey>)
    requires (forall k :: k in keys <==> k in table) && forall k :: k in table ==> Names(table[k])
    ensures Replay(map[], SnapshotFrames(Lift(table), keys)) == table
  {
    CarriersAgree(Lift(table), keys);
    AdoptedLift(table);
  }

  /** A recovered table as the live table of a core that has just adopted it. */
  function Lift(table: Table): LiveTable {
    map k | k in table ::
        Live(if table[k].g2.Some? then Some(Dram(table[k].g2.value, true)) else None, table[k].g3, table[k].position)
  }

  // -- The disk half steps aside and comes back.

  function DiskHalf(table: Table): Kept {
    map k | k in table && table[k].g3.Some? :: (table[k].g3.value, table[k].position)
  }

  function WithoutDisk(records: LiveTable): LiveTable {
    map k | k in records && records[k].dram.Some? :: records[k].(g3 := None)
  }

  function WithDisk(records: LiveTable, kept: Kept): LiveTable {
    map k | k in records.Keys + kept.Keys ::
      if k !in kept then records[k]
      else if k in records then records[k].(g3 := Some(kept[k].0))
      else Live(None, Some(kept[k].0), kept[k].1)
  }

  /** `_without_g3`, in place. */
  method StripDisk(records: LiveTable) returns (r: LiveTable)
    ensures r == WithoutDisk(records)
  {
    r := records;
    var left := records.Keys;
    while left != {}
      invariant left <= records.Keys
      invariant forall k :: k in left ==> k in r && r[k] == records[k]
      invariant forall k :: k !in left ==>
        (k in r <==> k in WithoutDisk(records)) && (k in r ==> r[k] == WithoutDisk(records)[k])
    {
      var k :| k in left;
      if r[k].dram.None? {
        r := r - {k};
      } else {
        r := r[k := r[k].(g3 := None)];
      }
      left := left - {k};
    }
  }

  /** `_with_g3`, in place. */
  method RestoreDisk(records: LiveTable, kept: Kept) returns (r: LiveTable)
    ensures r == WithDisk(records, kept)
  {
    r := records;
    var left := kept.Keys;
    while left != {}
      invariant left <= kept.Keys
      invariant forall k :: k !in kept || k in left ==> (k in r <==> k in records) && (k in r ==> r[k] == records[k])
      invariant forall k :: k in kept && k !in left ==> k in r && r[k] == WithDisk(records, kept)[k]
    {
      var k :| k in left;
      if k in r {
        r := r[k := r[k].(g3 := Some(kept[k].0))];
      } else {
        r := r[k := Live(None, Some(kept[k].0), kept[k].1)];
      }
      left := left - {k};
    }
  }

  /** However the serving Guard changed the DRAM half, every disk residency comes back as it
      was and none is made up; a block it evicted keeps its disk half. */
  lemma DiskSurvivesServing(table: Table, served: LiveTable)
    requires forall k :: k in served ==> served[k].g3.None?
    ensures var back := Adopted(WithDisk(served, DiskHalf(table)));
      && (forall k :: k in table && table[k].g3.Some? ==> k in back && back[k].g3 == table[k].g3)
      && (forall k :: k in back && back[k].g3.Some? ==> k in table && table[k].g3 == back[k].g3)
      && (forall k :: k in table && table[k].g3.Some? && k !in served ==>
            back[k] == Rec(None, table[k].g3, table[k].position))
      && (forall k :: k in served && served[k].dram.Some? && served[k].dram.value.complete ==>
            k in back && back[k].g2 == Some(served[k].dram.value.slots))
      && (forall k :: k in back && back[k].g2.Some? ==>
            k in served && served[k].dram == Some(Dram(back[k].g2.value, true)))
  {
  }

  /** A Guard that served without changing anything hands back what it took over. */
  lemma IdleServingIsInvisible(table: Table)
    requires forall k :: k in table ==> Names(table[k])
    ensures Adopted(WithDisk(WithoutDisk(Lift(table)), DiskHalf(table))) == table
  {
    var back := Adopted(WithDisk(WithoutDisk(Lift(table)), DiskHalf(table)));
    forall k ensures (k in back <==> k in table) && (k in back ==> back[k] == table[k]) {
    }
  }
}
