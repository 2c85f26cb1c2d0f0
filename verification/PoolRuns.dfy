/** Whole runs of the residency machine, and when committing an eviction is safe. */
module PoolRuns {
  import opened Prelude
  import opened Pools
  import opened PoolSafety

  ghost predicate CanRun(s: Pool, steps: seq<Step>)
    decreases |steps|
  {
    steps == [] || (Enabled(s, steps[0]) && CanRun(Apply(s, steps[0]), steps[1..]))
  }

  ghost function After(s: Pool, steps: seq<Step>): Pool
    requires CanRun(s, steps)
    decreases |steps|
  {
    if steps == [] then s else After(Apply(s, steps[0]), steps[1..])
  }

  /** No decision call disturbs the victims selected before it. */
  ghost predicate Careful(s: Pool, steps: seq<Step>)
    requires CanRun(s, steps)
    decreases |steps|
  {
    steps == [] || ((steps[0] == Commit ==> Undisturbed(s)) && Careful(Apply(s, steps[0]), steps[1..]))
  }

  lemma StepKeeps(s: Pool, step: Step)
    requires Inv(s) && Enabled(s, step) && (step == Commit ==> Undisturbed(s))
    ensures Inv(Apply(s, step))
  {
    match step
    case AcquireReader(key) => AcquireKeeps(s, key);
    case ReleaseReaders(batch) => ReleaseKeeps(s, batch);
    case Reserve(key, id, slots) => ReserveKeeps(s, key, id, slots);
    case Fill(id, to) => FillKeeps(s, id, to);
    case Publish(key) => PublishKeeps(s, key);
    case Claim(key) => ClaimKeeps(s, key);
    case Unclaim(id) => UnclaimKeeps(s, id);
    case Retire(key) => RetireKeeps(s, key);
    case DrainCounts => DrainCountsKeeps(s);
    case DrainNext => DrainNextKeeps(s);
    case Free => FreeKeeps(s);
    case Select(key) => SelectKeeps(s, key);
    case Commit => CommitKeeps(s);
    case Evict => EvictKeeps(s);
  }

  lemma {:induction false} RunKeeps(s: Pool, steps: seq<Step>)
    requires Inv(s) && CanRun(s, steps) && Careful(s, steps)
    ensures Inv(After(s, steps))
    decreases |steps|
  {
    if steps != [] {
      StepKeeps(s, steps[0]);
      RunKeeps(Apply(s, steps[0]), steps[1..]);
    }
  }

  /** An empty pool with all its slots free. */
  function Empty(all: set<Slot>): Pool {
    Pool(all, map[], map[], {}, map[], map[], map[], multiset{}, multiset{}, [], [], multiset{}, {}, multiset(all),
         map[], None, [], [])
  }

  lemma EmptyInv(all: set<Slot>)
    ensures Inv(Empty(all))
  {
    var s := Empty(all);
    forall x ensures SlotOk(s, x) { }
  }

  /** The residency is its key's, and none of its slots is free. */
  ghost predicate Holding(s: Pool, id: nat) {
    Seated(s.blocks, s.resident, id) && forall x :: x in s.blocks[id].slots ==> x !in s.free
  }

  ghost predicate IsActive(s: Pool, id: nat) {
    id in s.blocks && s.blocks[id].key in s.active && s.active[s.blocks[id].key] == id
  }

  /** Under every interleaving of the progress thread with the owner: a residency that is read
      is its key's residency and none of its slots is free; it is active under its key, and
      nothing else is active; what is claimed is likewise its key's residency with none of its
      slots free; and once its readers have drained, what is idle can be evicted. */
  lemma EveryInterleavingIsSafe(all: set<Slot>, steps: seq<Step>)
    requires CanRun(Empty(all), steps) && Careful(Empty(all), steps)
    ensures var s := After(Empty(all), steps);
      && (forall id :: id in s.readers ==> Holding(s, id))
      && (forall id :: id in s.readers <==> IsActive(s, id))
      && (forall id :: id in s.claims ==> Holding(s, id))
      && (forall id :: Idle(s, id) && s.work == [] && id !in s.readers ==> s.blocks[id].key in s.ranked)
      && (forall k :: k in s.ranked ==> k in s.resident && Idle(s, s.resident[k]))
  {
    EmptyInv(all);
    RunKeeps(Empty(all), steps);
    var s := After(Empty(all), steps);
    forall id ensures id in s.readers <==> IsActive(s, id) {
      assert ReaderOk(s, id);
      assert id in s.blocks ==> KeyOk(s, s.blocks[id].key);
    }
    forall id | id in s.readers || id in s.claims ensures Holding(s, id) {
      assert ReaderOk(s, id) && ClaimOk(s, id);
      forall x | x in s.blocks[id].slots ensures x !in s.free { assert HoldOk(s, id, x) && SlotOk(s, x); }
    }
    forall id | Idle(s, id) && s.work == [] && id !in s.readers ensures s.blocks[id].key in s.ranked {
      assert RankOk(s, id);
    }
    forall k | k in s.ranked ensures k in s.resident && Idle(s, s.resident[k]) { assert KeyOk(s, k); }
  }

  ghost predicate HoldsSlot(s: Pool, k: BlockKey, x: Slot) {
    k in s.resident && s.resident[k] in s.blocks && x in s.blocks[s.resident[k]].slots
  }

  /** In calm states, the free slots and the slots of resident keys partition the pool. */
  lemma SlotsPartition(s: Pool, x: Slot)
    requires Inv(s) && s.freeing.None? && x in s.all
    ensures s.free[x] == 1 <==> (forall k :: !HoldsSlot(s, k, x))
    ensures s.free[x] == 0 <==> (exists k :: HoldsSlot(s, k, x))
    ensures forall j, k :: HoldsSlot(s, j, x) && HoldsSlot(s, k, x) ==> j == k
  {
    assert SlotOk(s, x);
    forall k | HoldsSlot(s, k, x)
      ensures x in s.owner && s.owner[x] == s.resident[k] && s.blocks[s.resident[k]].key == k
    {
      assert KeyOk(s, k) && HoldOk(s, s.resident[k], x);
    }
    if x in s.owner {
      var k := s.blocks[s.owner[x]].key;
      assert HoldsSlot(s, k, x);
    }
  }

  /** Freed, or about to be nobody's: not in the table and not waiting to be freed. */
  ghost predicate Gone(s: Pool, id: nat) {
    id in s.blocks && !Seated(s.blocks, s.resident, id) && s.freeing != Some(id)
  }

  /** Freeing after the last claim: nobody claims or reads the residency, and it is then gone. */
  lemma FreesUnused(s: Pool)
    requires Inv(s) && Enabled(s, Free)
    ensures var id, t := s.freeing.value, ApplyFree(s);
      && id !in s.claims && id !in s.readers && !Gone(s, id) && Gone(t, id)
      && t.free == s.free + multiset(s.blocks[id].slots)
  {
    var id := s.freeing.value;
    assert OwnerOk(s, id) && ClaimOk(s, id);
  }

  /** Evicting a committed victim: likewise. */
  lemma EvictsUnused(s: Pool)
    requires Inv(s) && Enabled(s, Evict)
    ensures var id, t := s.committing[0], ApplyEvict(s);
      && id !in s.claims && id !in s.readers && !Gone(s, id) && Gone(t, id)
      && t.free == s.free + multiset(s.blocks[id].slots)
  {
    var id := s.committing[0];
    assert OwnerOk(s, id) && ReaderOk(s, id);
    assert s.freeing != Some(id);
  }

  /** The steps that change neither the block table nor the free list. */
  predicate IsQuiet(step: Step) {
    !step.Reserve? && !step.Unclaim? && !step.DrainNext? && !step.Free? && !step.Evict?
  }

  lemma QuietStep(s: Pool, step: Step)
    requires Enabled(s, step) && IsQuiet(step)
    ensures SameTable(s, Apply(s, step))
  {
  }

  /** No other step adds to the free list. */
  lemma OthersFreeNothing(s: Pool, step: Step)
    requires Enabled(s, step) && step !in {Free, Evict}
    ensures Apply(s, step).free <= s.free
  {
    if IsQuiet(step) {
      QuietStep(s, step);
    } else {
      match step
      case Reserve(key, id, slots) => assert ApplyReserve(s, key, id, slots).free <= s.free;
      case Unclaim(id) => assert ApplyUnclaim(s, id).free == s.free;
      case DrainNext => assert ApplyDrainNext(s).free == s.free;
    }
  }

  /** Whenever a slot becomes free, the residency it belonged to had no claim and no reader, and
      is gone from then on. */
  lemma FreedMeansUnused(s: Pool, step: Step, x: Slot)
    requires Inv(s) && Enabled(s, step) && Apply(s, step).free[x] > s.free[x]
    ensures x in s.owner && s.owner[x] !in s.claims && s.owner[x] !in s.readers && Gone(Apply(s, step), s.owner[x])
  {
    if step == Free {
      FreesUnused(s);
      assert HoldOk(s, s.freeing.value, x);
    } else if step == Evict {
      EvictsUnused(s);
      assert OwnerOk(s, s.committing[0]) && HoldOk(s, s.committing[0], x);
    } else {
      OthersFreeNothing(s, step);
      assert false;
    }
  }

  /** Nobody needs the residency, and it cannot stay for later readers. */
  predicate IsDoomed(s: Pool, id: nat) {
    && id in s.blocks && id in s.phase && id !in s.readers
    && (s.phase[id] in {Filling, Discarding} || id in s.retiring)
  }

  /** The step takes away the last claim on a residency, or has counted down its readers when it had no
      claim left. */
  predicate LooksAtLast(s: Pool, step: Step, id: nat) {
    || (step == Unclaim(id) && s.claims[id] == 1)
    || (step == DrainNext && s.work != [] && s.work[0] == id && Seated(s.blocks, s.resident, id) && id !in s.claims)
  }

  /** A residency goes to be freed exactly when its last claim goes or its readers have been counted down,
      and it is then unreadable or retiring with nobody left. */
  lemma FreesIff(s: Pool, step: Step, id: nat)
    requires Inv(s) && Enabled(s, step) && s.freeing.None?
    ensures Apply(s, step).freeing == Some(id) <==> LooksAtLast(s, step, id) && IsDoomed(s, id)
  {
    if step.Unclaim? {
      UnclaimFrees(s, step.id, id);
    } else if step == DrainNext {
      DrainFrees(s, id);
    } else {
      KeepsFreeing(s, step);
    }
  }

  lemma UnclaimFrees(s: Pool, x: nat, id: nat)
    requires Inv(s) && Enabled(s, Unclaim(x)) && s.freeing.None?
    ensures ApplyUnclaim(s, x).freeing == Some(id) <==> x == id && s.claims[id] == 1 && IsDoomed(s, id)
  {
  }

  lemma DrainFrees(s: Pool, id: nat)
    requires Inv(s) && Enabled(s, DrainNext) && s.freeing.None?
    ensures ApplyDrainNext(s).freeing == Some(id) <==> LooksAtLast(s, DrainNext, id) && IsDoomed(s, id)
  {
  }

  lemma KeepsFreeing(s: Pool, step: Step)
    requires Enabled(s, step) && !step.Unclaim? && !step.DrainNext? && s.freeing.None?
    ensures Apply(s, step).freeing.None?
  {
    if IsQuiet(step) {
      QuietStep(s, step);
    }
  }

  /** The progress thread can find this residency under the key. */
  predicate IsFound(s: Pool, k: BlockKey, id: nat) { k in s.index && s.index[k] == Some(id) }

  predicate Publishes(s: Pool, step: Step, k: BlockKey, id: nat) {
    && step == Publish(k) && k in s.resident && s.resident[k] == id && id in s.phase && s.phase[id] == Complete
    && id !in s.retiring
  }

  /** The step hides whatever residency the key has: it retires, is discarded, leaves or is evicted. */
  predicate Hides(s: Pool, step: Step, k: BlockKey) {
    || step == Retire(k)
    || (step.Fill? && step.to == Discarding && step.id in s.blocks && s.blocks[step.id].key == k)
    || (&& step == Commit && (exists id :: id in s.victims && id in s.blocks && s.blocks[id].key == k)
        && forall id :: id in s.victims ==> id !in s.readers)
    || (k in s.resident && LooksAtLast(s, step, s.resident[k]) && IsDoomed(s, s.resident[k]))
  }

  lemma FoundAfterLast(s: Pool, step: Step, k: BlockKey, id: nat)
    requires Inv(s) && Enabled(s, step) && (step.Unclaim? || step.DrainNext?)
    ensures IsFound(Apply(s, step), k, id) <==> IsFound(s, k, id) && !Hides(s, step, k)
  {
    if step.Unclaim? {
      FoundUnclaimed(s, step.id, k, id);
    } else {
      FoundDrained(s, k, id);
    }
  }

  lemma FoundUnclaimed(s: Pool, x: nat, k: BlockKey, id: nat)
    requires Inv(s) && Enabled(s, Unclaim(x))
    ensures IsFound(ApplyUnclaim(s, x), k, id) <==> IsFound(s, k, id) && !Hides(s, Unclaim(x), k)
  {
    assert KeyOk(s, k) && ClaimOk(s, x) && KeyOk(s, s.blocks[x].key);
  }

  lemma FoundDrained(s: Pool, k: BlockKey, id: nat)
    requires Inv(s) && Enabled(s, DrainNext)
    ensures IsFound(ApplyDrainNext(s), k, id) <==> IsFound(s, k, id) && !Hides(s, DrainNext, k)
  {
    assert KeyOk(s, k) && KeyOk(s, s.blocks[s.work[0]].key);
  }

  /** From `s` to `t`, the step has done to what can be found what it should. */
  ghost predicate FoundAs(s: Pool, step: Step, t: Pool, k: BlockKey, id: nat) {
    IsFound(t, k, id) <==> Publishes(s, step, k, id) || (IsFound(s, k, id) && !Hides(s, step, k))
  }

  lemma FoundReserved(s: Pool, step: Step, k: BlockKey, id: nat)
    requires Inv(s) && Enabled(s, step) && step.Reserve?
    ensures FoundAs(s, step, Apply(s, step), k, id)
  {
    assert KeyOk(s, k);
  }

  lemma FoundFilled(s: Pool, step: Step, k: BlockKey, id: nat)
    requires Enabled(s, step) && step.Fill?
    ensures FoundAs(s, step, Apply(s, step), k, id)
  {
  }

  lemma FoundPublished(s: Pool, step: Step, k: BlockKey, id: nat)
    requires Inv(s) && Enabled(s, step) && step.Publish?
    ensures FoundAs(s, step, Apply(s, step), k, id)
  {
    assert KeyOk(s, k);
  }

  lemma FoundRetired(s: Pool, step: Step, k: BlockKey, id: nat)
    requires Enabled(s, step) && step.Retire?
    ensures FoundAs(s, step, Apply(s, step), k, id)
  {
  }

  lemma FoundCommitted(s: Pool, step: Step, k: BlockKey, id: nat)
    requires Enabled(s, step) && step.Commit?
    ensures FoundAs(s, step, Apply(s, step), k, id)
  {
  }

  /** The steps that leave the index alone. */
  predicate LeavesIndex(step: Step) {
    step.AcquireReader? || step.ReleaseReaders? || step.Claim? || step.DrainCounts? || step.Free? || step.Select?
      || step.Evict?
  }

  lemma SameIndex(s: Pool, step: Step)
    requires Enabled(s, step) && LeavesIndex(step)
    ensures Apply(s, step).index == s.index
  {
  }

  lemma FoundAlike(s: Pool, step: Step, t: Pool, k: BlockKey, id: nat)
    requires LeavesIndex(step) && t.index == s.index
    ensures FoundAs(s, step, t, k, id)
  {
  }

  /** A residency can be found from the step that publishes it, complete and wanted, to the step that hides
      its key. */
  lemma FoundIff(s: Pool, step: Step, k: BlockKey, id: nat)
    requires Inv(s) && Enabled(s, step)
    ensures FoundAs(s, step, Apply(s, step), k, id)
  {
    if step.Unclaim? || step.DrainNext? {
      FoundAfterLast(s, step, k, id);
    } else if step.Reserve? {
      FoundReserved(s, step, k, id);
    } else if step.Fill? {
      FoundFilled(s, step, k, id);
    } else if step.Publish? {
      FoundPublished(s, step, k, id);
    } else if step.Retire? {
      FoundRetired(s, step, k, id);
    } else if step.Commit? {
      FoundCommitted(s, step, k, id);
    } else {
      SameIndex(s, step);
      FoundAlike(s, step, Apply(s, step), k, id);
    }
  }

  lemma GoneAfterLast(s: Pool, x: nat, id: nat)
    requires x in s.blocks && x in s.phase && Seated(s.blocks, s.resident, x) && Gone(s, id)
    ensures Gone(AfterLastClaim(s, x), id)
  {
  }

  lemma GoneReserve(s: Pool, key: BlockKey, id: nat, slots: set<Slot>, gone: nat)
    requires Enabled(s, Reserve(key, id, slots)) && Gone(s, gone)
    ensures Gone(ApplyReserve(s, key, id, slots), gone)
  {
  }

  lemma GoneElsewhere(s: Pool, step: Step, id: nat)
    requires Enabled(s, step) && Gone(s, id) && !step.Unclaim? && !step.DrainNext?
    ensures Gone(Apply(s, step), id)
  {
    if IsQuiet(step) {
      QuietStep(s, step);
    } else {
      match step
      case Reserve(key, added, slots) => GoneReserve(s, key, added, slots, id);
      case Evict => assert Gone(ApplyEvict(s), id);
      case Free => assert Gone(ApplyFree(s), id);
    }
  }

  /** What is gone never comes back, so no residency's slots are freed twice. */
  lemma GoneStays(s: Pool, step: Step, id: nat)
    requires Inv(s) && Enabled(s, step) && Gone(s, id)
    ensures Gone(Apply(s, step), id)
  {
    match step
    case Unclaim(x) => GoneAfterLast(DropClaim(s, x), x, id);
    case DrainNext =>
      var x, t := s.work[0], s.(work := s.work[1..]);
      if Seated(s.blocks, s.resident, x) {
        GoneAfterLast(t, x, id);
      }
    case _ => GoneElsewhere(s, step, id);
  }

  lemma {:induction false} GoneForever(s: Pool, steps: seq<Step>, id: nat)
    requires Inv(s) && CanRun(s, steps) && Careful(s, steps) && Gone(s, id)
    ensures Gone(After(s, steps), id)
    decreases |steps|
  {
    if steps != [] {
      GoneStays(s, steps[0], id);
      StepKeeps(s, steps[0]);
      GoneForever(Apply(s, steps[0]), steps[1..], id);
    }
  }

  // -- Committing an eviction.

  /** The unlocked loop that follows a commit. */
  ghost function EvictAll(s: Pool): Pool
    requires forall id :: id in s.committing ==> id in s.blocks
    decreases |s.committing|
  {
    if s.committing == [] then s else EvictAll(ApplyEvict(s))
  }

  /** All slots of some residencies together. */
  ghost function Released(blocks: map<nat, Block>, ids: seq<nat>): multiset<Slot>
    requires forall id :: id in ids ==> id in blocks
  {
    if ids == [] then multiset{} else multiset(blocks[ids[0]].slots) + Released(blocks, ids[1..])
  }

  lemma {:induction false} EvictAllFrame(s: Pool)
    requires forall id :: id in s.committing ==> id in s.blocks
    ensures var t := EvictAll(s);
      t == s.(committing := [], resident := t.resident, ranked := t.ranked, free := t.free, owner := t.owner)
    decreases |s.committing|
  {
    if s.committing != [] {
      assert s.committing == [s.committing[0]] + s.committing[1..];
      EvictAllFrame(ApplyEvict(s));
    }
  }

  lemma {:induction false} EvictAllKeys(s: Pool)
    requires forall id :: id in s.committing ==> id in s.blocks
    ensures EvictAll(s).resident == s.resident - KeysOf(s.blocks, s.committing)
    ensures EvictAll(s).ranked == s.ranked - KeysOf(s.blocks, s.committing)
    decreases |s.committing|
  {
    if s.committing == [] {
      assert KeysOf(s.blocks, s.committing) == {};
    } else {
      var rest := s.committing[1..];
      assert s.committing == [s.committing[0]] + rest;
      EvictAllKeys(ApplyEvict(s));
      var key := s.blocks[s.committing[0]].key;
      assert KeysOf(s.blocks, s.committing) == {key} + KeysOf(s.blocks, rest);
      assert s.resident - {key} - KeysOf(s.blocks, rest) == s.resident - ({key} + KeysOf(s.blocks, rest));
    }
  }

  lemma {:induction false} EvictAllSlots(s: Pool)
    requires forall id :: id in s.committing ==> id in s.blocks
    ensures EvictAll(s).free == s.free + Released(s.blocks, s.committing)
    ensures EvictAll(s).owner == map x | x in s.owner && x !in Released(s.blocks, s.committing) :: s.owner[x]
    decreases |s.committing|
  {
    if s.committing != [] {
      var next := ApplyEvict(s);
      assert s.committing == [s.committing[0]] + next.committing;
      EvictAllSlots(next);
      assert next.owner == s.owner - s.blocks[s.committing[0]].slots;
    }
  }

  lemma {:induction false} ReleasedCount(blocks: map<nat, Block>, ids: seq<nat>, i: nat, x: Slot)
    requires (forall id :: id in ids ==> id in blocks) && i < |ids| && x in blocks[ids[i]].slots
    ensures Released(blocks, ids)[x] >= 1
    ensures forall j :: 0 <= j < |ids| && j != i && x in blocks[ids[j]].slots ==> Released(blocks, ids)[x] >= 2
  {
    if i == 0 {
      forall j | 0 < j < |ids| && x in blocks[ids[j]].slots ensures Released(blocks, ids)[x] >= 2 {
        ReleasedCount(blocks, ids[1..], j - 1, x);
      }
    } else {
      ReleasedCount(blocks, ids[1..], i - 1, x);
      assert ids[1..][i - 1] == ids[i];
      forall j | 0 <= j < |ids| && j != i && x in blocks[ids[j]].slots ensures Released(blocks, ids)[x] >= 2 {
        assert j > 0 ==> ids[1..][j - 1] == ids[j];
      }
    }
  }

  lemma {:induction false} EvictAllKeeps(s: Pool)
    requires Inv(s) && forall id :: id in s.committing ==> id in s.blocks
    ensures Inv(EvictAll(s))
    decreases |s.committing|
  {
    if s.committing != [] {
      EvictKeeps(s);
      assert forall id :: id in s.committing[1..] ==> id in s.committing;
      EvictAllKeeps(ApplyEvict(s));
    }
  }

  /** The residencies that leave the table with the keys of the victims. */
  ghost predicate Leaves(s: Pool, id: nat)
    requires forall v :: v in s.victims ==> v in s.blocks
  {
    Seated(s.blocks, s.resident, id) && s.blocks[id].key in KeysOf(s.blocks, s.victims)
  }

  /** What a caller could check before committing: nobody claims or reads what leaves the table,
      and the slots given back are exactly the slots of what leaves, each once. */
  ghost predicate Harmless(s: Pool)
    requires forall v :: v in s.victims ==> v in s.blocks
  {
    && (forall id :: Leaves(s, id) ==> id !in s.claims && id !in s.readers)
    && (forall x :: Released(s.blocks, s.victims)[x] <= 1)
    && (forall x :: x in Released(s.blocks, s.victims) <==> x in s.owner && Leaves(s, s.owner[x]))
  }

  /** The whole eviction at once. */
  ghost predicate Evicted(s: Pool, t: Pool)
    requires forall v :: v in s.victims ==> v in s.blocks
  {
    var keys, slots := KeysOf(s.blocks, s.victims), Released(s.blocks, s.victims);
    && t == s.(victims := [], index := s.index - keys, resident := s.resident - keys, ranked := s.ranked - keys,
               free := s.free + slots, owner := t.owner)
    && t.owner == map x | x in s.owner && x !in slots :: s.owner[x]
  }

  lemma EvictAllIsEvicted(s: Pool)
    requires Enabled(s, Commit)
    ensures Evicted(s, EvictAll(Committed(s)))
  {
    EvictAllFrame(Committed(s));
    EvictAllKeys(Committed(s));
    EvictAllSlots(Committed(s));
  }

  lemma HarmlessSlots(s: Pool, t: Pool)
    requires Inv(s) && Enabled(s, Commit) && Evicted(s, t) && Harmless(s)
    ensures Slots(t)
  {
    forall x ensures SlotOk(t, x) {
      assert SlotOk(s, x);
      if x in t.owner {
        assert !Leaves(s, s.owner[x]);
      }
    }
    forall i, x ensures HoldOk(t, i, x) { assert HoldOk(s, i, x) && SlotOk(s, x); }
  }

  lemma HarmlessIsSafe(s: Pool, t: Pool)
    requires Inv(s) && Enabled(s, Commit) && Evicted(s, t) && Harmless(s)
    ensures Inv(t)
  {
    forall id ensures ClaimOk(t, id) && ReaderOk(t, id) {
      assert ClaimOk(s, id) && ReaderOk(s, id);
      assert !Leaves(s, id) || (id !in s.claims && id !in s.readers);
    }
    forall id ensures OwnerOk(t, id) { assert OwnerOk(s, id); }
    forall id ensures RankOk(t, id) { assert RankOk(s, id); }
    forall k ensures KeyOk(t, k) { assert KeyOk(s, k); }
    HarmlessSlots(s, t);
  }

  /** A slot given back is free once afterwards, so it was owned, by something that leaves. */
  lemma SafeGivesBack(s: Pool, t: Pool, x: Slot)
    requires Inv(s) && Enabled(s, Commit) && Evicted(s, t) && Inv(t) && x in Released(s.blocks, s.victims)
    ensures Released(s.blocks, s.victims)[x] == 1 && x in s.owner && Leaves(s, s.owner[x])
  {
    assert SlotOk(s, x) && SlotOk(t, x);
    ReleasedIsInPool(s, s.victims, x);
    assert HoldOk(t, s.owner[x], x) && HoldOk(s, s.owner[x], x);
  }

  lemma {:induction false} ReleasedIsInPool(s: Pool, ids: seq<nat>, x: Slot)
    requires Inv(s) && (forall id :: id in ids ==> id in s.blocks) && x in Released(s.blocks, ids)
    ensures x in s.all
  {
    assert OwnerOk(s, ids[0]);
    if x !in s.blocks[ids[0]].slots {
      ReleasedIsInPool(s, ids[1..], x);
    }
  }

  lemma SafeIsHarmless(s: Pool, t: Pool)
    requires Inv(s) && Enabled(s, Commit) && Evicted(s, t) && Inv(t)
    ensures Harmless(s)
  {
    forall id | Leaves(s, id) ensures id !in s.claims && id !in s.readers {
      assert ClaimOk(t, id) && ReaderOk(t, id);
    }
    var slots := Released(s.blocks, s.victims);
    forall x ensures slots[x] <= 1 && (x in slots ==> x in s.owner && Leaves(s, s.owner[x])) {
      if x in slots {
        SafeGivesBack(s, t, x);
      }
    }
    forall x | x in s.owner && Leaves(s, s.owner[x]) ensures x in slots {
      assert SlotOk(t, x);
    }
  }

  /** Once the readers have been looked at, committing is safe exactly when it is harmless. */
  lemma CommitIsSafeIffHarmless(s: Pool)
    requires Inv(s) && Enabled(s, Commit)
    ensures Inv(EvictAll(Committed(s))) <==> Harmless(s)
  {
    EvictAllIsEvicted(s);
    var t := EvictAll(Committed(s));
    if Harmless(s) {
      HarmlessIsSafe(s, t);
    }
    if Inv(t) {
      SafeIsHarmless(s, t);
    }
  }

  /** If no victim's key was filled anew meanwhile, that is to say that the decision calls left
      the selected victims alone: seated and unclaimed. */
  lemma HarmlessIffUndisturbed(s: Pool)
    requires Inv(s) && Enabled(s, Commit)
    requires forall id :: id in s.victims ==> id !in s.readers && s.blocks[id].slots != {}
    requires forall id :: id in s.victims && s.blocks[id].key in s.resident ==> s.resident[s.blocks[id].key] == id
    ensures Harmless(s) <==> Undisturbed(s)
  {
    if Undisturbed(s) {
      CommittedKeeps(s);
      EvictAllKeeps(Committed(s));
      CommitIsSafeIffHarmless(s);
    }
    if Harmless(s) {
      forall id | id in s.victims ensures Seated(s.blocks, s.resident, id) && id !in s.claims {
        VictimIsSeated(s, id);
        assert Leaves(s, id);
      }
    }
  }

  lemma VictimIsSeated(s: Pool, id: nat)
    requires Inv(s) && Enabled(s, Commit) && Harmless(s) && id in s.victims && s.blocks[id].slots != {}
    requires forall v :: v in s.victims && s.blocks[v].key in s.resident ==> s.resident[s.blocks[v].key] == v
    ensures Seated(s.blocks, s.resident, id)
  {
    var i :| 0 <= i < |s.victims| && s.victims[i] == id;
    var x :| x in s.blocks[id].slots;
    ReleasedCount(s.blocks, s.victims, i, x);
    var o := s.owner[x];
    assert Leaves(s, o);
    assert SlotOk(s, x);
    var j :| 0 <= j < |s.victims| && s.blocks[s.victims[j]].key == s.blocks[o].key;
    assert s.victims[j] in s.victims && o == s.victims[j];
    assert HoldOk(s, o, x);
  }
}
