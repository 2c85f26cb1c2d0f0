/**
 The reader table that the progress thread and the owner share, as the object they update under
 its lock: a whole operation is acquired or drained in one go.
 */
module SourceState {
  import opened Prelude
  import opened Pools
  import opened PoolSafety

  /** Acquiring an operation's keys one after the other, without anything in between. */
  ghost function AcquireAll(s: Pool, keys: seq<BlockKey>): (t: Pool)
    requires forall i :: 0 <= i < |keys| ==> keys[i] in s.index && s.index[keys[i]].Some?
    ensures t.index == s.index && t.blocks == s.blocks
    decreases |keys|
  {
    if keys == [] then s else ApplyAcquire(AcquireAll(s, keys[..|keys| - 1]), keys[|keys| - 1])
  }

  lemma {:induction false} AcquireAllKeeps(s: Pool, keys: seq<BlockKey>)
    requires Inv(s) && forall i :: 0 <= i < |keys| ==> keys[i] in s.index && s.index[keys[i]].Some?
    ensures Inv(AcquireAll(s, keys))
    decreases |keys|
  {
    if keys != [] {
      AcquireAllKeeps(s, keys[..|keys| - 1]);
      AcquireKeeps(AcquireAll(s, keys[..|keys| - 1]), keys[|keys| - 1]);
    }
  }

  class ReaderTable {
    var blocks: map<nat, Block>
    var index: map<BlockKey, Option<nat>>
    var active: map<BlockKey, nat>
    var readers: multiset<nat>

    /** The table agrees with a pool's. */
    ghost predicate Shows(s: Pool)
      reads this
    {
      blocks == s.blocks && index == s.index && active == s.active && readers == s.readers
    }

    constructor ()
      ensures blocks == map[] && index == map[] && active == map[] && readers == multiset{}
    {
      blocks, index, active, readers := map[], map[], map[], multiset{};
    }

    /** `_mark_source_pending`: the key is known, and not yet to be found by the progress thread. */
    method Reserve(key: BlockKey, id: nat, slots: set<Slot>, ghost s: Pool)
      requires Shows(s) && Inv(s) && Enabled(s, Step.Reserve(key, id, slots))
      modifies this`blocks, this`index
      ensures Inv(ApplyReserve(s, key, id, slots)) && Shows(ApplyReserve(s, key, id, slots))
    {
      ReserveKeeps(s, key, id, slots);
      blocks, index := blocks[id := Block(key, slots)], index[key := None];
    }

    /** `_publish_source`: what is complete and wanted can be found from now on. */
    method Publish(key: BlockKey, id: nat, ready: bool, ghost s: Pool)
      requires Shows(s) && Inv(s) && Enabled(s, Step.Publish(key)) && id == s.resident[key]
      requires ready <==> id in s.phase && s.phase[id] == Complete && id !in s.retiring
      modifies this`index
      ensures Inv(ApplyPublish(s, key)) && Shows(ApplyPublish(s, key))
    {
      PublishKeeps(s, key);
      if ready {
        index := index[key := Some(id)];
      }
    }

    /** A key on its way out is hidden: when it retires, or when its fill is discarded. */
    method Hide(key: BlockKey, ghost s: Pool)
      requires Shows(s)
      modifies this`index
      ensures Enabled(s, Retire(key)) ==> Shows(ApplyRetire(s, key))
      ensures forall id :: id in s.blocks && s.blocks[id].key == key ==> Shows(ApplyFill(s, id, Discarding))
    {
      index := index[key := None];
    }

    /** A key leaves: after its last claim, or with the other victims of an eviction. */
    method Withdraw(keys: set<BlockKey>, ghost s: Pool)
      requires Shows(s)
      modifies this`index
      ensures forall id :: id in s.blocks && keys == {s.blocks[id].key} ==> Shows(Withdrawn(s, id))
      ensures Enabled(s, Commit) && keys == KeysOf(s.blocks, s.victims) ==> Shows(Committed(s))
    {
      index := index - keys;
    }

    /** All keys of an operation, or none: the second pass over the claims, once every key has
        been found. */
    method Acquire(keys: seq<BlockKey>, ghost s: Pool) returns (ok: bool)
      requires Shows(s) && Inv(s)
      modifies this`active, this`readers
      ensures ok <==> forall i :: 0 <= i < |keys| ==> keys[i] in index && index[keys[i]].Some?
      ensures ok ==> Inv(AcquireAll(s, keys)) && Shows(AcquireAll(s, keys))
      ensures !ok ==> Shows(s)
    {
      if exists i :: 0 <= i < |keys| && !(keys[i] in index && index[keys[i]].Some?) {
        return false;
      }
      for i := 0 to |keys|
        invariant forall j :: 0 <= j < |keys[..i]| ==> keys[..i][j] in s.index && s.index[keys[..i][j]].Some?
        invariant Shows(AcquireAll(s, keys[..i]))
      {
        assert keys[..i + 1][..i] == keys[..i];
        AcquireAllKeeps(s, keys[..i]);
        var id := index[keys[i]].value;
        readers, active := readers + multiset{id}, active[keys[i] := id];
      }
      assert keys[..|keys|] == keys;
      AcquireAllKeeps(s, keys);
      ok := true;
    }

    /** Count a finished operation's readers down. The ownership errors do not occur for an
        operation whose readers are still counted. */
    method Drain(batch: seq<nat>, ghost s: Pool) returns (ok: bool)
      requires Shows(s) && Inv(s)
      modifies this`active, this`readers
      ensures ok <==> CountDown(s.blocks, s.readers, s.active, batch).Some?
      ensures ok ==> (readers, active) == CountDown(s.blocks, s.readers, s.active, batch).value
      ensures s.completions != [] && batch == s.completions[0] ==> ok
    {
      for i := 0 to |batch|
        invariant CountDown(blocks, readers, active, batch[i..]) == CountDown(s.blocks, s.readers, s.active, batch)
      {
        var id := batch[i];
        assert batch[i..][0] == id && batch[i..][1..] == batch[i + 1..];
        if readers[id] == 0 || id !in blocks || (readers[id] == 1 && blocks[id].key !in active) {
          OnlyForeignBatchFails(s, batch);
          return false;
        }
        if readers[id] == 1 {
          active := active - {blocks[id].key};
        }
        readers := readers - multiset{id};
      }
      ok := true;
    }
  }

  lemma OnlyForeignBatchFails(s: Pool, batch: seq<nat>)
    requires Inv(s) && CountDown(s.blocks, s.readers, s.active, batch).None?
    ensures s.completions == [] || batch != s.completions[0]
  {
    if s.completions != [] {
      DrainNeverFails(s);
    }
  }
}
