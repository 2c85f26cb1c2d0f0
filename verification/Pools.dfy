/**
 Local DRAM residencies as a state machine. The progress thread takes and gives back reader
 claims under the source lock; the owner claims, retires, drains and evicts. Each step is one
 lock-protected section, or one stretch of owner code that touches nothing the progress
 thread can see.
 */
module Pools {
  import opened Prelude

  datatype Phase = Filling | Partial | Complete | Discarding

  /** What never changes about a residency. */
  datatype Block = Block(key: BlockKey, slots: set<Slot>)

  datatype Pool = Pool(
    all: set<Slot>,
    blocks: map<nat, Block>,
    phase: map<nat, Phase>,
    retiring: set<nat>,
    resident: map<BlockKey, nat>,
    index: map<BlockKey, Option<nat>>,
    active: map<BlockKey, nat>,
    readers: multiset<nat>,
    reading: multiset<nat>,
    completions: seq<seq<nat>>,
    work: seq<nat>,
    claims: multiset<nat>,
    ranked: set<BlockKey>,
    free: multiset<Slot>,
    owner: map<Slot, nat>,
    freeing: Option<nat>,
    victims: seq<nat>,
    committing: seq<nat>)

  /** The block table still names this residency. */
  predicate Seated(blocks: map<nat, Block>, resident: map<BlockKey, nat>, id: nat) {
    id in blocks && blocks[id].key in resident && resident[blocks[id].key] == id
  }

  ghost function Flat(batches: seq<seq<nat>>): multiset<nat> {
    if batches == [] then multiset{} else multiset(batches[0]) + Flat(batches[1..])
  }

  lemma {:induction false} FlatAppend(batches: seq<seq<nat>>, batch: seq<nat>)
    ensures Flat(batches + [batch]) == Flat(batches) + multiset(batch)
  {
    if batches == [] {
      assert (batches + [batch])[1..] == [];
    } else {
      FlatAppend(batches[1..], batch);
      assert (batches + [batch])[1..] == batches[1..] + [batch];
    }
  }

  // -- The invariant, stated for each residency, key and slot.

  /** Complete, wanted, and unclaimed. */
  ghost predicate Idle(s: Pool, id: nat) {
    Seated(s.blocks, s.resident, id) && id in s.phase && s.phase[id] == Complete && id !in s.retiring && id !in s.claims
  }

  /** A claimed residency is its key's residency. */
  ghost predicate ClaimOk(s: Pool, id: nat) { id in s.claims ==> Seated(s.blocks, s.resident, id) }

  /** A residency with readers is its key's residency, is readable, and is the active one. Its
      readers are the reads under way and those not yet drained. */
  ghost predicate ReaderOk(s: Pool, id: nat) {
    && s.readers[id] == s.reading[id] + Flat(s.completions)[id]
    && (id in s.readers ==>
        && Seated(s.blocks, s.resident, id) && id in s.phase && s.phase[id] == Complete
        && s.blocks[id].key in s.active && s.active[s.blocks[id].key] == id)
  }

  /** An idle residency is ranked for eviction unless readers are still to be drained. */
  ghost predicate RankOk(s: Pool, id: nat) {
    Idle(s, id) && id !in s.readers && id !in s.work ==> s.blocks[id].key in s.ranked
  }

  /** Where a residency stands with the owner: one being freed is out of the table, and a
      committed victim is out of everyone's reach. */
  ghost predicate OwnerOk(s: Pool, id: nat) {
    && (id in s.blocks <==> id in s.phase)
    && (id in s.blocks ==> s.blocks[id].slots <= s.all)
    && (s.freeing == Some(id) ==>
          id in s.blocks && !Seated(s.blocks, s.resident, id) && id !in s.readers && s.committing == [])
    && (id in s.victims ==> id in s.blocks)
    && (id in s.work ==> id in s.blocks)
    && (id in s.committing ==>
          Seated(s.blocks, s.resident, id) && id !in s.claims && id !in s.readers && s.blocks[id].key !in s.index)
  }

  /** The tables by key: the block table, the active readers, the index the progress thread
      searches, and the eviction ranking, which holds only idle residencies. */
  ghost predicate KeyOk(s: Pool, k: BlockKey) {
    && (k in s.resident ==> s.resident[k] in s.blocks && s.blocks[s.resident[k]].key == k)
    && (k in s.active ==> s.active[k] in s.readers && s.active[k] in s.blocks && s.blocks[s.active[k]].key == k)
    && (k in s.index && s.index[k].Some? ==>
        && k in s.resident && s.resident[k] == s.index[k].value && s.resident[k] in s.phase
        && s.phase[s.resident[k]] == Complete && s.resident[k] !in s.retiring)
    && (k in s.ranked ==> k in s.resident && Idle(s, s.resident[k]))
  }

  /** A slot is free, once, or owned by the residency that names it. */
  ghost predicate SlotOk(s: Pool, x: Slot) {
    && s.free[x] == (if x in s.all && x !in s.owner then 1 else 0)
    && (x in s.owner ==>
        && x in s.all && s.owner[x] in s.blocks && x in s.blocks[s.owner[x]].slots
        && (Seated(s.blocks, s.resident, s.owner[x]) || s.freeing == Some(s.owner[x])))
  }

  ghost predicate HoldOk(s: Pool, id: nat, x: Slot) {
    id in s.blocks && x in s.blocks[id].slots && (Seated(s.blocks, s.resident, id) || s.freeing == Some(id)) ==>
      x in s.owner && s.owner[x] == id
  }

  predicate NoRepeats(ids: seq<nat>) { forall i, j :: 0 <= i < j < |ids| ==> ids[i] != ids[j] }

  ghost predicate Claims(s: Pool) { forall id :: ClaimOk(s, id) }
  ghost predicate Readers(s: Pool) { forall id :: ReaderOk(s, id) }
  ghost predicate Owners(s: Pool) { NoRepeats(s.victims) && NoRepeats(s.committing) && forall id :: OwnerOk(s, id) }
  ghost predicate Ranks(s: Pool) { forall id :: RankOk(s, id) }
  ghost predicate RanksBut(s: Pool, late: nat) { forall id :: id != late ==> RankOk(s, id) }
  ghost predicate Keys(s: Pool) { forall k :: KeyOk(s, k) }
  ghost predicate Slots(s: Pool) { (forall x :: SlotOk(s, x)) && forall id, x :: HoldOk(s, id, x) }

  ghost predicate Base(s: Pool) { Claims(s) && Readers(s) && Owners(s) && Keys(s) && Slots(s) }

  ghost predicate Inv(s: Pool) { Base(s) && Ranks(s) }

  // -- Steps.

  /** Count a batch of finished reads down, as the drain loop does; `None` is the
      lost-ownership error, including an active entry that is not there. */
  function CountDown(blocks: map<nat, Block>, readers: multiset<nat>, active: map<BlockKey, nat>,
                     batch: seq<nat>): Option<(multiset<nat>, map<BlockKey, nat>)> {
    if batch == [] then Some((readers, active))
    else
      var id := batch[0];
      if readers[id] == 0 || id !in blocks then None
      else if readers[id] > 1 then CountDown(blocks, readers - multiset{id}, active, batch[1..])
      else if blocks[id].key !in active then None
      else CountDown(blocks, readers - multiset{id}, active - {blocks[id].key}, batch[1..])
  }

  datatype Step =
    | AcquireReader(key: BlockKey)
    | ReleaseReaders(batch: seq<nat>)
    | Reserve(key: BlockKey, id: nat, slots: set<Slot>)
    | Fill(id: nat, to: Phase)
    | Publish(key: BlockKey)
    | Claim(key: BlockKey)
    | Unclaim(id: nat)
    | Retire(key: BlockKey)
    | DrainCounts
    | DrainNext
    | Free
    | Select(key: BlockKey)
    | Commit
    | Evict

  /** The owner is in the middle of nothing. */
  predicate Calm(s: Pool) { s.freeing.None? && s.committing == [] }

  predicate Enabled(s: Pool, step: Step) {
    match step
    case AcquireReader(key) => key in s.index && s.index[key].Some?
    case ReleaseReaders(batch) => multiset(batch) <= s.reading
    case Reserve(key, id, slots) =>
      Calm(s) && key !in s.resident && id !in s.blocks && (forall x :: x in slots ==> x in s.free)
    case Fill(id, to) =>
      // Copies hold a claim; only a residency with nothing readable may be discarded.
      && Calm(s) && id in s.phase && id in s.claims
      && ((s.phase[id] == Filling && to != Filling) || (s.phase[id] == Partial && to == Complete))
    case Publish(key) => Calm(s) && key in s.resident
    case Claim(key) =>
      Calm(s) && key in s.resident && s.resident[key] in s.phase && s.phase[s.resident[key]] != Discarding
    case Unclaim(id) =>
      // Anything else is the invalid-claim error.
      Calm(s) && id in s.blocks && id in s.phase && Seated(s.blocks, s.resident, id) && id in s.claims
    case Retire(key) =>
      && Calm(s) && key in s.resident && s.resident[key] in s.phase
      && s.phase[s.resident[key]] in {Partial, Complete} && s.resident[key] in s.claims
    case DrainCounts =>
      && Calm(s) && s.completions != [] && s.work == []
      && CountDown(s.blocks, s.readers, s.active, s.completions[0]).Some?
    case DrainNext => Calm(s) && s.work != [] && s.work[0] in s.blocks && s.work[0] in s.phase
    case Free => s.freeing.Some? && s.freeing.value in s.blocks
    case Select(key) =>
      && Calm(s) && key in s.ranked && key in s.resident
      && s.resident[key] !in s.readers && s.resident[key] !in s.victims
    case Commit => Calm(s) && s.victims != [] && (forall id :: id in s.victims ==> id in s.blocks)
    case Evict => s.committing != [] && s.committing[0] in s.blocks
  }

  /** What happens when a residency's last claim goes, or its readers have been counted down. */
  function AfterLastClaim(s: Pool, id: nat): (t: Pool)
    requires id in s.blocks && id in s.phase
    ensures t.free == s.free
  {
    var key := s.blocks[id].key;
    if id in s.readers then s
    else if s.phase[id] in {Filling, Discarding} || id in s.retiring then
      Withdrawn(s, id)
    else if s.phase[id] == Complete then s.(ranked := s.ranked + {key})
    else s
  }

  function Withdrawn(s: Pool, id: nat): Pool
    requires id in s.blocks
  {
    var key := s.blocks[id].key;
    s.(index := s.index - {key}, resident := s.resident - {key}, freeing := Some(id))
  }

  function FreeSlots(s: Pool, slots: set<Slot>): Pool {
    s.(free := s.free + multiset(slots), owner := s.owner - slots)
  }

  /** The steps below that promise this change neither the block table nor the free list. */
  predicate SameTable(s: Pool, t: Pool) {
    t.blocks == s.blocks && t.resident == s.resident && t.freeing == s.freeing && t.free == s.free
  }

  function Apply(s: Pool, step: Step): Pool
    requires Enabled(s, step)
  {
    match step
    case AcquireReader(key) => ApplyAcquire(s, key)
    case ReleaseReaders(batch) => ApplyRelease(s, batch)
    case Reserve(key, id, slots) => ApplyReserve(s, key, id, slots)
    case Fill(id, to) => ApplyFill(s, id, to)
    case Publish(key) => ApplyPublish(s, key)
    case Claim(key) => ApplyClaim(s, key)
    case Unclaim(id) => ApplyUnclaim(s, id)
    case Retire(key) => ApplyRetire(s, key)
    case DrainCounts => ApplyDrainCounts(s)
    case DrainNext => ApplyDrainNext(s)
    case Free => ApplyFree(s)
    case Select(key) => ApplySelect(s, key)
    case Commit => ApplyCommit(s)
    case Evict => ApplyEvict(s)
  }

  function ApplyAcquire(s: Pool, key: BlockKey): (t: Pool)
    requires key in s.index && s.index[key].Some?
    ensures SameTable(s, t) && t.claims == s.claims && t.phase == s.phase
  {
    var id := s.index[key].value;
    s.(readers := s.readers + multiset{id}, reading := s.reading + multiset{id}, active := s.active[key := id])
  }

  function ApplyRelease(s: Pool, batch: seq<nat>): (t: Pool)
    ensures SameTable(s, t) && t.claims == s.claims && t.phase == s.phase
  {
    s.(reading := s.reading - multiset(batch), completions := s.completions + [batch])
  }

  function ApplyFill(s: Pool, id: nat, to: Phase): (t: Pool)
    ensures SameTable(s, t)
  {
    var t := s.(phase := s.phase[id := to]);
    if to == Discarding && id in s.blocks then t.(index := s.index[s.blocks[id].key := None]) else t
  }

  function ApplyPublish(s: Pool, key: BlockKey): (t: Pool)
    requires key in s.resident
    ensures SameTable(s, t) && t.claims == s.claims && t.phase == s.phase
  {
    var id := s.resident[key];
    if id in s.phase && s.phase[id] == Complete && id !in s.retiring then s.(index := s.index[key := Some(id)]) else s
  }

  function ApplyClaim(s: Pool, key: BlockKey): (t: Pool)
    requires key in s.resident
    ensures SameTable(s, t)
  {
    var id := s.resident[key];
    s.(claims := s.claims + multiset{id}, ranked := s.ranked - {key})
  }

  function ApplyRetire(s: Pool, key: BlockKey): (t: Pool)
    requires key in s.resident
    ensures SameTable(s, t) && t.claims == s.claims && t.phase == s.phase
  {
    s.(retiring := s.retiring + {s.resident[key]}, index := s.index[key := None])
  }

  function ApplyDrainCounts(s: Pool): (t: Pool)
    requires s.completions != [] && CountDown(s.blocks, s.readers, s.active, s.completions[0]).Some?
    ensures SameTable(s, t) && t.claims == s.claims && t.phase == s.phase
  {
    var (readers, active) := CountDown(s.blocks, s.readers, s.active, s.completions[0]).value;
    s.(readers := readers, active := active, completions := s.completions[1..], work := s.completions[0])
  }

  function ApplyFree(s: Pool): Pool
    requires s.freeing.Some? && s.freeing.value in s.blocks
  {
    FreeSlots(s, s.blocks[s.freeing.value].slots).(freeing := None)
  }

  function ApplySelect(s: Pool, key: BlockKey): (t: Pool)
    requires key in s.resident
    ensures SameTable(s, t) && t.claims == s.claims && t.phase == s.phase
  {
    s.(victims := s.victims + [s.resident[key]])
  }

  function ApplyReserve(s: Pool, key: BlockKey, id: nat, slots: set<Slot>): Pool {
    s.(blocks := s.blocks[id := Block(key, slots)], phase := s.phase[id := Filling], resident := s.resident[key := id],
       index := s.index[key := None], free := s.free - multiset(slots), owner := s.owner + (map x | x in slots :: id))
  }

  function DropClaim(s: Pool, id: nat): Pool { s.(claims := s.claims - multiset{id}) }

  function ApplyUnclaim(s: Pool, id: nat): Pool
    requires id in s.blocks && id in s.phase
  {
    var t := DropClaim(s, id);
    if id in t.claims then t else AfterLastClaim(t, id)
  }

  /** After the counting, each residency of the batch is looked at once more. */
  function ApplyDrainNext(s: Pool): Pool
    requires s.work != [] && s.work[0] in s.blocks && s.work[0] in s.phase
  {
    var id, t := s.work[0], s.(work := s.work[1..]);
    var key := s.blocks[id].key;
    if key in s.resident && s.resident[key] == id && id !in s.claims then AfterLastClaim(t, id) else t
  }

  /** The re-check under the lock looks at readers alone. */
  function ApplyCommit(s: Pool): (t: Pool)
    requires forall id :: id in s.victims ==> id in s.blocks
    ensures SameTable(s, t) && t.claims == s.claims && t.phase == s.phase
  {
    if exists id :: id in s.victims && id in s.readers then s.(victims := []) else Committed(s)
  }

  function Committed(s: Pool): Pool
    requires forall id :: id in s.victims ==> id in s.blocks
  {
    s.(victims := [], committing := s.victims, index := s.index - KeysOf(s.blocks, s.victims))
  }

  function KeysOf(blocks: map<nat, Block>, ids: seq<nat>): (r: set<BlockKey>)
    requires forall id :: id in ids ==> id in blocks
    ensures forall id :: id in ids ==> blocks[id].key in r
  {
    set i | 0 <= i < |ids| :: blocks[ids[i]].key
  }

  function ApplyEvict(s: Pool): Pool
    requires s.committing != [] && s.committing[0] in s.blocks
  {
    var id := s.committing[0];
    var key := s.blocks[id].key;
    FreeSlots(s.(ranked := s.ranked - {key}, resident := s.resident - {key}, committing := s.committing[1..]),
              s.blocks[id].slots)
  }

  /** What the decision call must have left alone: every selected victim is still its key's
      residency and nobody claims it. */
  predicate Undisturbed(s: Pool) {
    forall id :: id in s.victims ==>
      id in s.blocks && s.blocks[id].key in s.resident && s.resident[s.blocks[id].key] == id && id !in s.claims
  }
}
