/** Every step keeps the invariant of the residency machine. */
module PoolSafety {
  import opened Prelude
  import opened Pools

  lemma AcquireKeeps(s: Pool, key: BlockKey)
    requires Inv(s) && Enabled(s, AcquireReader(key))
    ensures Inv(ApplyAcquire(s, key))
  {
    var t, id := ApplyAcquire(s, key), s.index[key].value;
    assert KeyOk(s, key);
    assert OwnerOk(s, id);
    forall x ensures ClaimOk(t, x) && ReaderOk(t, x) && OwnerOk(t, x) {
      assert ClaimOk(s, x) && ReaderOk(s, x) && OwnerOk(s, x);
    }
    forall x ensures RankOk(t, x) { assert RankOk(s, x) && OwnerOk(s, x); }
    forall k ensures KeyOk(t, k) { assert KeyOk(s, k); }
    forall x ensures SlotOk(t, x) { assert SlotOk(s, x); }
    forall i, x ensures HoldOk(t, i, x) { assert HoldOk(s, i, x); }
  }

  lemma ReleaseKeeps(s: Pool, batch: seq<nat>)
    requires Inv(s) && Enabled(s, ReleaseReaders(batch))
    ensures Inv(ApplyRelease(s, batch))
  {
    var t := ApplyRelease(s, batch);
    FlatAppend(s.completions, batch);
    forall x ensures ClaimOk(t, x) && ReaderOk(t, x) && OwnerOk(t, x) {
      assert ClaimOk(s, x) && ReaderOk(s, x) && OwnerOk(s, x);
    }
    forall x ensures RankOk(t, x) { assert RankOk(s, x) && OwnerOk(s, x); }
    forall k ensures KeyOk(t, k) { assert KeyOk(s, k); }
    forall x ensures SlotOk(t, x) { assert SlotOk(s, x); }
    forall i, x ensures HoldOk(t, i, x) { assert HoldOk(s, i, x); }
  }

  /** A phase that moves on while a claim is held, of a residency that was never complete. */
  lemma PhaseKeeps(s: Pool, id: nat, to: Phase)
    requires Inv(s) && Enabled(s, Fill(id, to))
    ensures Inv(s.(phase := s.phase[id := to]))
  {
    var t := s.(phase := s.phase[id := to]);
    assert ClaimOk(s, id) && OwnerOk(s, id) && ReaderOk(s, id);
    forall x ensures ClaimOk(t, x) && ReaderOk(t, x) && OwnerOk(t, x) {
      assert ClaimOk(s, x) && ReaderOk(s, x) && OwnerOk(s, x);
    }
    forall x ensures RankOk(t, x) { assert RankOk(s, x); }
    forall k ensures KeyOk(t, k) { assert KeyOk(s, k); }
    forall x ensures SlotOk(t, x) { assert SlotOk(s, x); }
    forall i, x ensures HoldOk(t, i, x) { assert HoldOk(s, i, x); }
  }

  /** Hiding a key from the progress thread. */
  lemma HideKeeps(s: Pool, key: BlockKey)
    requires Inv(s) && Calm(s)
    ensures Inv(s.(index := s.index[key := None]))
  {
    var t := s.(index := s.index[key := None]);
    forall x ensures ClaimOk(t, x) && ReaderOk(t, x) && OwnerOk(t, x) {
      assert ClaimOk(s, x) && ReaderOk(s, x) && OwnerOk(s, x);
    }
    forall x ensures RankOk(t, x) { assert RankOk(s, x); }
    forall k ensures KeyOk(t, k) { assert KeyOk(s, k); }
    forall x ensures SlotOk(t, x) { assert SlotOk(s, x); }
    forall i, x ensures HoldOk(t, i, x) { assert HoldOk(s, i, x); }
  }

  lemma FillKeeps(s: Pool, id: nat, to: Phase)
    requires Inv(s) && Enabled(s, Fill(id, to))
    ensures Inv(ApplyFill(s, id, to))
  {
    PhaseKeeps(s, id, to);
    if to == Discarding && id in s.blocks {
      HideKeeps(s.(phase := s.phase[id := to]), s.blocks[id].key);
    }
  }

  lemma PublishKeeps(s: Pool, key: BlockKey)
    requires Inv(s) && Enabled(s, Publish(key))
    ensures Inv(ApplyPublish(s, key))
  {
    var t := ApplyPublish(s, key);
    forall x ensures ClaimOk(t, x) && ReaderOk(t, x) && OwnerOk(t, x) {
      assert ClaimOk(s, x) && ReaderOk(s, x) && OwnerOk(s, x);
    }
    forall x ensures RankOk(t, x) { assert RankOk(s, x) && OwnerOk(s, x); }
    forall k ensures KeyOk(t, k) { assert KeyOk(s, k); }
    forall x ensures SlotOk(t, x) { assert SlotOk(s, x); }
    forall i, x ensures HoldOk(t, i, x) { assert HoldOk(s, i, x); }
  }

  lemma RetireKeeps(s: Pool, key: BlockKey)
    requires Inv(s) && Enabled(s, Retire(key))
    ensures Inv(ApplyRetire(s, key))
  {
    var t := ApplyRetire(s, key);
    assert KeyOk(s, key);
    forall x ensures ClaimOk(t, x) && ReaderOk(t, x) && OwnerOk(t, x) {
      assert ClaimOk(s, x) && ReaderOk(s, x) && OwnerOk(s, x);
    }
    forall x ensures RankOk(t, x) { assert RankOk(s, x) && OwnerOk(s, x); }
    forall k ensures KeyOk(t, k) { assert KeyOk(s, k); }
    forall x ensures SlotOk(t, x) { assert SlotOk(s, x); }
    forall i, x ensures HoldOk(t, i, x) { assert HoldOk(s, i, x); }
  }

  lemma SelectKeeps(s: Pool, key: BlockKey)
    requires Inv(s) && Enabled(s, Select(key))
    ensures Inv(ApplySelect(s, key))
  {
    var t := ApplySelect(s, key);
    assert KeyOk(s, key);
    forall x ensures ClaimOk(t, x) && ReaderOk(t, x) && OwnerOk(t, x) {
      assert ClaimOk(s, x) && ReaderOk(s, x) && OwnerOk(s, x);
    }
    forall x ensures RankOk(t, x) { assert RankOk(s, x) && OwnerOk(s, x); }
    forall k ensures KeyOk(t, k) { assert KeyOk(s, k); }
    forall x ensures SlotOk(t, x) { assert SlotOk(s, x); }
    forall i, x ensures HoldOk(t, i, x) { assert HoldOk(s, i, x); }
  }

  lemma AbortKeeps(s: Pool)
    requires Inv(s)
    ensures Inv(s.(victims := []))
  {
    var t := s.(victims := []);
    forall x ensures ClaimOk(t, x) && ReaderOk(t, x) && OwnerOk(t, x) {
      assert ClaimOk(s, x) && ReaderOk(s, x) && OwnerOk(s, x);
    }
    forall x ensures RankOk(t, x) { assert RankOk(s, x) && OwnerOk(s, x); }
    forall k ensures KeyOk(t, k) { assert KeyOk(s, k); }
    forall x ensures SlotOk(t, x) { assert SlotOk(s, x); }
    forall i, x ensures HoldOk(t, i, x) { assert HoldOk(s, i, x); }
  }

  lemma CommittedKeeps(s: Pool)
    requires Inv(s) && Enabled(s, Commit) && Undisturbed(s) && forall id :: id in s.victims ==> id !in s.readers
    ensures Inv(Committed(s))
  {
    var t := Committed(s);
    forall x ensures OwnerOk(t, x) { assert OwnerOk(s, x); }
    forall x ensures RankOk(t, x) { assert RankOk(s, x); }
    forall x ensures ClaimOk(t, x) && ReaderOk(t, x) { assert ClaimOk(s, x) && ReaderOk(s, x); }
    forall k ensures KeyOk(t, k) { assert KeyOk(s, k); }
    forall x ensures SlotOk(t, x) { assert SlotOk(s, x); }
    forall i, x ensures HoldOk(t, i, x) { assert HoldOk(s, i, x); }
  }

  lemma CommitKeeps(s: Pool)
    requires Inv(s) && Enabled(s, Commit) && Undisturbed(s)
    ensures Inv(ApplyCommit(s))
  {
    if exists id :: id in s.victims && id in s.readers {
      AbortKeeps(s);
    } else {
      CommittedKeeps(s);
    }
  }

  lemma ReserveSlots(s: Pool, key: BlockKey, id: nat, slots: set<Slot>)
    requires Inv(s) && Enabled(s, Reserve(key, id, slots))
    ensures Slots(ApplyReserve(s, key, id, slots))
  {
    var t := ApplyReserve(s, key, id, slots);
    assert OwnerOk(s, id);
    forall x ensures SlotOk(t, x) { assert SlotOk(s, x); }
    forall i, x ensures HoldOk(t, i, x) { assert HoldOk(s, i, x) && SlotOk(s, x); }
  }

  lemma ReserveTables(s: Pool, key: BlockKey, id: nat, slots: set<Slot>)
    requires Inv(s) && Enabled(s, Reserve(key, id, slots))
    ensures var t := ApplyReserve(s, key, id, slots); Keys(t) && Owners(t) && Ranks(t)
  {
    var t := ApplyReserve(s, key, id, slots);
    assert OwnerOk(s, id);
    forall x | x in slots ensures x in s.all { assert SlotOk(s, x); }
    forall x ensures OwnerOk(t, x) { assert OwnerOk(s, x); }
    forall x ensures RankOk(t, x) { assert RankOk(s, x); }
    forall k ensures KeyOk(t, k) { assert KeyOk(s, k); }
  }

  lemma ReserveKeeps(s: Pool, key: BlockKey, id: nat, slots: set<Slot>)
    requires Inv(s) && Enabled(s, Reserve(key, id, slots))
    ensures Inv(ApplyReserve(s, key, id, slots))
  {
    var t := ApplyReserve(s, key, id, slots);
    ReserveSlots(s, key, id, slots);
    ReserveTables(s, key, id, slots);
    assert ClaimOk(s, id) && ReaderOk(s, id);
    forall x ensures ClaimOk(t, x) && ReaderOk(t, x) { assert ClaimOk(s, x) && ReaderOk(s, x); }
  }

  lemma FreeKeeps(s: Pool)
    requires Inv(s) && Enabled(s, Free)
    ensures Inv(ApplyFree(s))
  {
    var t, id := ApplyFree(s), s.freeing.value;
    assert OwnerOk(s, id);
    forall x ensures ClaimOk(t, x) && ReaderOk(t, x) && OwnerOk(t, x) {
      assert ClaimOk(s, x) && ReaderOk(s, x) && OwnerOk(s, x);
    }
    forall x ensures RankOk(t, x) { assert RankOk(s, x) && OwnerOk(s, x); }
    forall k ensures KeyOk(t, k) { assert KeyOk(s, k); }
    forall x ensures SlotOk(t, x) { assert SlotOk(s, x) && HoldOk(s, id, x); }
    forall i, x ensures HoldOk(t, i, x) { assert HoldOk(s, i, x) && HoldOk(s, id, x); }
  }

  lemma EvictKeeps(s: Pool)
    requires Inv(s) && Enabled(s, Evict)
    ensures Inv(ApplyEvict(s))
  {
    var t, id := ApplyEvict(s), s.committing[0];
    assert OwnerOk(s, id) && ClaimOk(s, id) && ReaderOk(s, id);
    forall x ensures ClaimOk(t, x) && ReaderOk(t, x) && OwnerOk(t, x) {
      assert ClaimOk(s, x) && ReaderOk(s, x) && OwnerOk(s, x);
    }
    forall x ensures RankOk(t, x) { assert RankOk(s, x) && OwnerOk(s, x); }
    forall k ensures KeyOk(t, k) { assert KeyOk(s, k); }
    forall x ensures SlotOk(t, x) { assert SlotOk(s, x) && HoldOk(s, id, x); }
    forall i, x ensures HoldOk(t, i, x) { assert HoldOk(s, i, x) && HoldOk(s, id, x); }
  }

  /** A residency with readers is active under its key. */
  ghost predicate ReadOf(blocks: map<nat, Block>, readers: multiset<nat>, active: map<BlockKey, nat>, id: nat) {
    id in readers ==> id in blocks && blocks[id].key in active && active[blocks[id].key] == id
  }

  /** What is active under a key has readers. */
  ghost predicate ActiveAt(blocks: map<nat, Block>, readers: multiset<nat>, active: map<BlockKey, nat>, k: BlockKey) {
    k in active ==> active[k] in readers && active[k] in blocks && blocks[active[k]].key == k
  }

  ghost predicate ActiveOk(blocks: map<nat, Block>, readers: multiset<nat>, active: map<BlockKey, nat>) {
    (forall id :: ReadOf(blocks, readers, active, id)) && forall k :: ActiveAt(blocks, readers, active, k)
  }

  lemma CountOne(blocks: map<nat, Block>, readers: multiset<nat>, active: map<BlockKey, nat>, id: nat)
    requires ActiveOk(blocks, readers, active) && id in readers
    ensures id in blocks && blocks[id].key in active
    ensures ActiveOk(blocks, readers - multiset{id}, if readers[id] > 1 then active else active - {blocks[id].key})
  {
    assert ReadOf(blocks, readers, active, id);
    var fewer := readers - multiset{id};
    var rest := if readers[id] > 1 then active else active - {blocks[id].key};
    forall x ensures ReadOf(blocks, fewer, rest, x) { assert ReadOf(blocks, readers, active, x); }
    forall k ensures ActiveAt(blocks, fewer, rest, k) { assert ActiveAt(blocks, readers, active, k); }
  }

  /** Counting a batch down never fails, and leaves exactly the other readers active. */
  lemma {:induction false} CountDownSucceeds(blocks: map<nat, Block>, readers: multiset<nat>,
                                             active: map<BlockKey, nat>, batch: seq<nat>)
    requires multiset(batch) <= readers && ActiveOk(blocks, readers, active)
    ensures CountDown(blocks, readers, active, batch).Some?
    ensures CountDown(blocks, readers, active, batch).value.0 == readers - multiset(batch)
    ensures ActiveOk(blocks, readers - multiset(batch), CountDown(blocks, readers, active, batch).value.1)
    decreases |batch|
  {
    if batch == [] {
      assert readers - multiset(batch) == readers;
    } else {
      var id := batch[0];
      assert batch == [id] + batch[1..];
      assert multiset(batch) == multiset{id} + multiset(batch[1..]);
      assert id in multiset(batch);
      CountOne(blocks, readers, active, id);
      assert readers - multiset{id} - multiset(batch[1..]) == readers - multiset(batch);
      if readers[id] > 1 {
        CountDownSucceeds(blocks, readers - multiset{id}, active, batch[1..]);
      } else {
        CountDownSucceeds(blocks, readers - multiset{id}, active - {blocks[id].key}, batch[1..]);
      }
    }
  }

  /** The drain's ownership errors are unreachable. */
  lemma DrainNeverFails(s: Pool)
    requires Inv(s) && s.completions != []
    ensures multiset(s.completions[0]) <= s.readers
    ensures CountDown(s.blocks, s.readers, s.active, s.completions[0]).Some?
    ensures CountDown(s.blocks, s.readers, s.active, s.completions[0]).value.0 == s.readers - multiset(s.completions[0])
    ensures ActiveOk(s.blocks, s.readers - multiset(s.completions[0]),
                     CountDown(s.blocks, s.readers, s.active, s.completions[0]).value.1)
  {
    forall id ensures multiset(s.completions[0])[id] <= s.readers[id] && ReadOf(s.blocks, s.readers, s.active, id) {
      assert ReaderOk(s, id);
    }
    forall k ensures ActiveAt(s.blocks, s.readers, s.active, k) { assert KeyOk(s, k); }
    CountDownSucceeds(s.blocks, s.readers, s.active, s.completions[0]);
  }

  lemma DrainReaders(s: Pool)
    requires Inv(s) && Enabled(s, DrainCounts)
    ensures var t := ApplyDrainCounts(s); Readers(t) && Keys(t)
  {
    var t := ApplyDrainCounts(s);
    DrainNeverFails(s);
    forall x ensures ReaderOk(t, x) { assert ReaderOk(s, x) && ReadOf(t.blocks, t.readers, t.active, x); }
    forall k ensures KeyOk(t, k) { assert KeyOk(s, k) && ActiveAt(t.blocks, t.readers, t.active, k); }
  }

  lemma DrainCountsKeeps(s: Pool)
    requires Inv(s) && Enabled(s, DrainCounts)
    ensures Inv(ApplyDrainCounts(s))
  {
    var t, batch := ApplyDrainCounts(s), s.completions[0];
    DrainNeverFails(s);
    DrainReaders(s);
    forall x ensures ClaimOk(t, x) { assert ClaimOk(s, x); }
    forall x ensures OwnerOk(t, x) && RankOk(t, x) {
      assert OwnerOk(s, x) && RankOk(s, x) && ReaderOk(s, x);
      assert x in batch <==> x in multiset(batch);
    }
    forall x ensures SlotOk(t, x) { assert SlotOk(s, x); }
    forall i, x ensures HoldOk(t, i, x) { assert HoldOk(s, i, x); }
  }

  lemma ClaimKeeps(s: Pool, key: BlockKey)
    requires Inv(s) && Enabled(s, Claim(key))
    ensures Inv(ApplyClaim(s, key))
  {
    var t, id := ApplyClaim(s, key), s.resident[key];
    assert KeyOk(s, key) && ClaimOk(s, id);
    forall x ensures ClaimOk(t, x) { assert ClaimOk(s, x); }
    forall x ensures ReaderOk(t, x) && OwnerOk(t, x) { assert ReaderOk(s, x) && OwnerOk(s, x); }
    forall x ensures RankOk(t, x) { assert RankOk(s, x) && KeyOk(s, key); }
    forall k ensures KeyOk(t, k) { assert KeyOk(s, k); }
    forall x ensures SlotOk(t, x) { assert SlotOk(s, x); }
    forall i, x ensures HoldOk(t, i, x) { assert HoldOk(s, i, x); }
  }

  /** Giving up one claim, before anyone looks whether it was the last. */
  lemma DropClaimKeeps(s: Pool, id: nat)
    requires Inv(s) && Enabled(s, Unclaim(id))
    ensures Base(DropClaim(s, id)) && RanksBut(DropClaim(s, id), id)
    ensures id in DropClaim(s, id).claims ==> Ranks(DropClaim(s, id))
  {
    var t := DropClaim(s, id);
    forall x ensures ClaimOk(t, x) { assert ClaimOk(s, x); }
    forall x ensures ReaderOk(t, x) && OwnerOk(t, x) { assert ReaderOk(s, x) && OwnerOk(s, x); }
    forall x | x != id || id in t.claims ensures RankOk(t, x) { assert RankOk(s, x); }
    forall k ensures KeyOk(t, k) { assert KeyOk(s, k); }
    forall x ensures SlotOk(t, x) { assert SlotOk(s, x); }
    forall i, x ensures HoldOk(t, i, x) { assert HoldOk(s, i, x); }
  }

  /** Withdrawing a residency that nobody claims or reads: it leaves the table and the index
      at once, and its slots stay its own until they are freed. */
  lemma WithdrawKeeps(s: Pool, id: nat)
    requires Base(s) && RanksBut(s, id) && Calm(s) && Seated(s.blocks, s.resident, id) && id !in s.claims
    requires id !in s.readers
    requires id in s.phase && (s.phase[id] in {Filling, Discarding} || id in s.retiring)
    ensures Inv(Withdrawn(s, id))
  {
    var t := Withdrawn(s, id);
    assert OwnerOk(s, id);
    forall x ensures ClaimOk(t, x) && ReaderOk(t, x) && OwnerOk(t, x) {
      assert ClaimOk(s, x) && ReaderOk(s, x) && OwnerOk(s, x);
    }
    forall x ensures RankOk(t, x) { assert x != id ==> RankOk(s, x); }
    forall k ensures KeyOk(t, k) { assert KeyOk(s, k); }
    forall x ensures SlotOk(t, x) { assert SlotOk(s, x); }
    forall i, x ensures HoldOk(t, i, x) { assert HoldOk(s, i, x); }
  }

  lemma RankKeeps(s: Pool, id: nat)
    requires Base(s) && RanksBut(s, id) && Idle(s, id)
    ensures Inv(s.(ranked := s.ranked + {s.blocks[id].key}))
  {
    var t := s.(ranked := s.ranked + {s.blocks[id].key});
    forall x ensures ClaimOk(t, x) && ReaderOk(t, x) && OwnerOk(t, x) {
      assert ClaimOk(s, x) && ReaderOk(s, x) && OwnerOk(s, x);
    }
    forall x ensures RankOk(t, x) { assert x != id ==> RankOk(s, x); }
    forall k ensures KeyOk(t, k) { assert KeyOk(s, k); }
    forall x ensures SlotOk(t, x) { assert SlotOk(s, x); }
    forall i, x ensures HoldOk(t, i, x) { assert HoldOk(s, i, x); }
  }

  lemma AfterLastKeeps(s: Pool, id: nat)
    requires Base(s) && RanksBut(s, id) && Calm(s) && Seated(s.blocks, s.resident, id) && id !in s.claims
    requires id in s.phase
    ensures Inv(AfterLastClaim(s, id))
  {
    if id !in s.readers {
      if s.phase[id] in {Filling, Discarding} || id in s.retiring {
        WithdrawKeeps(s, id);
      } else if s.phase[id] == Complete {
        RankKeeps(s, id);
      } else {
        assert RankOk(s, id);
      }
    } else {
      assert RankOk(s, id);
    }
  }

  lemma UnclaimKeeps(s: Pool, id: nat)
    requires Inv(s) && Enabled(s, Unclaim(id))
    ensures Inv(ApplyUnclaim(s, id))
  {
    var t := DropClaim(s, id);
    DropClaimKeeps(s, id);
    if id !in t.claims {
      AfterLastKeeps(t, id);
    }
  }

  /** Taking one residency off the drain's list leaves only that one possibly unranked. */
  lemma WorkKeeps(s: Pool)
    requires Inv(s) && s.work != []
    ensures Base(s.(work := s.work[1..])) && RanksBut(s.(work := s.work[1..]), s.work[0])
  {
    var t := s.(work := s.work[1..]);
    assert s.work == [s.work[0]] + t.work;
    forall x ensures ClaimOk(t, x) && ReaderOk(t, x) && OwnerOk(t, x) {
      assert ClaimOk(s, x) && ReaderOk(s, x) && OwnerOk(s, x);
    }
    forall x | x != s.work[0] ensures RankOk(t, x) { assert RankOk(s, x); }
    forall k ensures KeyOk(t, k) { assert KeyOk(s, k); }
    forall x ensures SlotOk(t, x) { assert SlotOk(s, x); }
    forall i, x ensures HoldOk(t, i, x) { assert HoldOk(s, i, x); }
  }

  lemma DrainNextKeeps(s: Pool)
    requires Inv(s) && Enabled(s, DrainNext)
    ensures Inv(ApplyDrainNext(s))
  {
    var t, id := s.(work := s.work[1..]), s.work[0];
    WorkKeeps(s);
    if Seated(s.blocks, s.resident, id) && id !in s.claims {
      AfterLastKeeps(t, id);
    } else {
      assert RankOk(t, id);
    }
  }
}
