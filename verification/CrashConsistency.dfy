/**
 Crash consistency. A primary changes its block table, publishes the change to the journal and
 only then gives slots back. Every such action is a step of its own, so that a run may stop
 between any two of them; whoever takes over has only the baseline and the published frames.
 */
module CrashConsistency {
  import opened Prelude
  import opened RecoveryRecords

  datatype Dram = Dram(slots: seq<Slot>, complete: bool)

  /** What the running action still has to do. */
  datatype Todo = Nothing | Publish(key: BlockKey, slots: seq<Slot>, disk: seq<nat>)
    | Release(key: BlockKey, slots: seq<Slot>, disk: seq<nat>)

  datatype Primary = Primary(
    all2: set<Slot>, all3: set<nat>,
    dram: map<BlockKey, Dram>,
    disk: map<BlockKey, seq<nat>>,
    writing: map<BlockKey, seq<nat>>,
    position: map<BlockKey, int>,
    free2: set<Slot>, free3: set<nat>,
    held2: map<Slot, BlockKey>, held3: map<nat, BlockKey>,
    bytes2: map<Slot, BlockKey>, bytes3: map<nat, BlockKey>,
    baseline: Table, frames: seq<Change>,
    valid: bool, enabled: bool,
    todo: Todo)

  // -- Replaying the journal.

  function Mirror(s: Primary): Table { Replay(s.baseline, s.frames) }

  function At(mirror: Table, k: BlockKey): Option<Rec> { if k in mirror then Some(mirror[k]) else None }

  /** The projection of a block record. */
  function Project(s: Primary, k: BlockKey): Rec {
    Rec(if k in s.dram && s.dram[k].complete then Some(s.dram[k].slots) else None,
        if k in s.disk then Some(s.disk[k]) else None,
        if k in s.position then s.position[k] else -1)
  }

  /** What the block table would have recovery know about a key. */
  function Known(s: Primary, k: BlockKey): Option<Rec> { if Names(Project(s, k)) then Some(Project(s, k)) else None }

  // -- Steps.

  datatype Step =
    | Reserve2(key: BlockKey, slots: seq<Slot>)
    | Fill2(key: BlockKey)
    | Abandon2(key: BlockKey)
    | Drop2(key: BlockKey)
    | Reserve3(key: BlockKey, disk: seq<nat>)
    | Commit3(key: BlockKey)
    | Rollback3(key: BlockKey)
    | Drop3(key: BlockKey)
    | Align(key: BlockKey, position: int)
    | Prune(key: BlockKey)
    | DoPublish(accepted: bool)
    | DoRelease
    | TakeOver

  predicate NoRepeats<T(==)>(s: seq<T>) { forall i, j :: 0 <= i < j < |s| ==> s[i] != s[j] }

  predicate Enabled(s: Primary, step: Step) {
    match step
    case Reserve2(key, slots) =>
      s.todo.Nothing? && key !in s.dram && NoRepeats(slots) && forall x :: x in slots ==> x in s.free2
    case Fill2(key) => s.todo.Nothing? && key in s.dram && !s.dram[key].complete
    case Abandon2(key) => s.todo.Nothing? && key in s.dram && !s.dram[key].complete
    case Drop2(key) => s.todo.Nothing? && key in s.dram && s.dram[key].complete
    case Reserve3(key, slots) =>
      && s.todo.Nothing? && key !in s.disk && key !in s.writing
      && NoRepeats(slots) && forall x :: x in slots ==> x in s.free3
    case Commit3(key) => s.todo.Nothing? && key in s.writing && key !in s.disk
    case Rollback3(key) => s.todo.Nothing? && key in s.writing
    case Drop3(key) => s.todo.Nothing? && key in s.disk
    case Align(key, position) => s.todo.Nothing? && (key in s.dram || key in s.disk)
    case Prune(key) =>
      key !in s.dram && key !in s.disk && key !in s.writing && !(s.todo.Publish? && s.todo.key == key)
    case DoPublish(accepted) => s.todo.Publish?
    case DoRelease => s.todo.Release?
    case TakeOver => true
  }

  function Put<T, V>(m: map<T, V>, xs: seq<T>, v: V): map<T, V> { m + map x | x in xs :: v }

  function Members<T>(xs: seq<T>): set<T> { set x | x in xs }

  /** Only publishing and taking over touch the journal. */
  predicate SameJournal(s: Primary, t: Primary) {
    t.baseline == s.baseline && t.frames == s.frames && t.valid == s.valid && t.enabled == s.enabled
  }

  function ApplyReserve2(s: Primary, key: BlockKey, slots: seq<Slot>): (t: Primary)
    ensures SameJournal(s, t)
  {
    s.(dram := s.dram[key := Dram(slots, false)], free2 := s.free2 - Members(slots), held2 := Put(s.held2, slots, key),
       bytes2 := s.bytes2 - Members(slots))
  }

  /** The last copy lands: the residency is complete, and this has to be published. */
  function ApplyFill2(s: Primary, key: BlockKey): (t: Primary)
    requires key in s.dram
    ensures SameJournal(s, t)
  {
    s.(dram := s.dram[key := s.dram[key].(complete := true)], bytes2 := Put(s.bytes2, s.dram[key].slots, key),
       todo := Publish(key, [], []))
  }

  /** An incomplete residency was never published: its slots go straight back. */
  function ApplyAbandon2(s: Primary, key: BlockKey): (t: Primary)
    requires key in s.dram
    ensures SameJournal(s, t)
  {
    s.(dram := s.dram - {key}, todo := Release(key, s.dram[key].slots, []))
  }

  function ApplyDrop2(s: Primary, key: BlockKey): (t: Primary)
    requires key in s.dram
    ensures SameJournal(s, t)
  {
    s.(dram := s.dram - {key}, todo := Publish(key, s.dram[key].slots, []))
  }

  function ApplyReserve3(s: Primary, key: BlockKey, slots: seq<nat>): (t: Primary)
    ensures SameJournal(s, t)
  {
    s.(writing := s.writing[key := slots], free3 := s.free3 - Members(slots), held3 := Put(s.held3, slots, key),
       bytes3 := s.bytes3 - Members(slots))
  }

  function ApplyCommit3(s: Primary, key: BlockKey): (t: Primary)
    requires key in s.writing
    ensures SameJournal(s, t)
  {
    s.(disk := s.disk[key := s.writing[key]], writing := s.writing - {key},
       bytes3 := Put(s.bytes3, s.writing[key], key), todo := Publish(key, [], []))
  }

  function ApplyRollback3(s: Primary, key: BlockKey): (t: Primary)
    requires key in s.writing
    ensures SameJournal(s, t)
  {
    s.(writing := s.writing - {key}, todo := Release(key, [], s.writing[key]))
  }

  function ApplyDrop3(s: Primary, key: BlockKey): (t: Primary)
    requires key in s.disk
    ensures SameJournal(s, t)
  {
    s.(disk := s.disk - {key}, todo := Publish(key, [], s.disk[key]))
  }

  /** A block moves within its sequence; a recoverable one is published again. */
  function ApplyAlign(s: Primary, key: BlockKey, position: int): (t: Primary)
    ensures SameJournal(s, t)
  {
    var moved := s.(position := s.position[key := position]);
    if Names(Project(s, key)) then moved.(todo := Publish(key, [], [])) else moved
  }

  /** The record of a block that no tier holds any more is dropped, and its position with it, unless
      something else still refers to the block. */
  function ApplyPrune(s: Primary, key: BlockKey): (t: Primary)
    ensures SameJournal(s, t)
  {
    s.(position := s.position - {key})
  }

  /** A frame the ring refuses flags the journal and ends publication for good. */
  function ApplyPublish(s: Primary, accepted: bool): Primary
    requires s.todo.Publish?
  {
    var next := Release(s.todo.key, s.todo.slots, s.todo.disk);
    if !s.enabled then s.(todo := next)
    else if !accepted then s.(todo := next, enabled := false, valid := false)
    else s.(todo := next, frames := s.frames + [(s.todo.key, Project(s, s.todo.key))])
  }

  function ApplyRelease(s: Primary): (t: Primary)
    requires s.todo.Release?
    ensures SameJournal(s, t)
  {
    s.(todo := Nothing, free2 := s.free2 + Members(s.todo.slots), held2 := s.held2 - Members(s.todo.slots),
       free3 := s.free3 + Members(s.todo.disk), held3 := s.held3 - Members(s.todo.disk))
  }

  /** What survives a crash: the mirror of a journal that drained cleanly, or nothing. */
  function Survivors(s: Primary): Table { if s.valid then Mirror(s) else map[] }

  ghost predicate Named2(mirror: Table, k: BlockKey, x: Slot) {
    k in mirror && mirror[k].g2.Some? && x in mirror[k].g2.value
  }

  ghost predicate Named3(mirror: Table, k: BlockKey, x: nat) {
    k in mirror && mirror[k].g3.Some? && x in mirror[k].g3.value
  }

  /** The primary dies at any point. The next holder starts from the survivors: their slots
      are taken, all others are free, and the survivors are the new baseline. */
  ghost function ApplyTakeOver(s: Primary): Primary { Resumed(s, Survivors(s)) }

  ghost function Resumed(s: Primary, m: Table): Primary {
    var named2 := set x | x in s.all2 && exists k :: Named2(m, k, x);
    var named3 := set x | x in s.all3 && exists k :: Named3(m, k, x);
    s.(dram := map k | k in m && m[k].g2.Some? :: Dram(m[k].g2.value, true),
       disk := map k | k in m && m[k].g3.Some? :: m[k].g3.value,
       writing := map[],
       position := map k | k in m :: m[k].position,
       free2 := s.all2 - named2, free3 := s.all3 - named3,
       held2 := map x | x in named2 && x in s.held2 :: s.held2[x],
       held3 := map x | x in named3 && x in s.held3 :: s.held3[x],
       baseline := m, frames := [], valid := true, enabled := true, todo := Nothing)
  }

  ghost function Apply(s: Primary, step: Step): Primary
    requires Enabled(s, step)
  {
    match step
    case Reserve2(key, slots) => ApplyReserve2(s, key, slots)
    case Fill2(key) => ApplyFill2(s, key)
    case Abandon2(key) => ApplyAbandon2(s, key)
    case Drop2(key) => ApplyDrop2(s, key)
    case Reserve3(key, slots) => ApplyReserve3(s, key, slots)
    case Commit3(key) => ApplyCommit3(s, key)
    case Rollback3(key) => ApplyRollback3(s, key)
    case Drop3(key) => ApplyDrop3(s, key)
    case Align(key, position) => ApplyAlign(s, key, position)
    case Prune(key) => ApplyPrune(s, key)
    case DoPublish(accepted) => ApplyPublish(s, accepted)
    case DoRelease => ApplyRelease(s)
    case TakeOver => ApplyTakeOver(s)
  }

  // -- The invariant, stated for each key and slot.

  /** Recovery knows what the table says, except for the change being made. */
  ghost predicate InSync(s: Primary, k: BlockKey) {
    && (s.valid && !(s.todo.Publish? && s.todo.key == k) ==> At(Mirror(s), k) == Known(s, k))
    && (k in Mirror(s) ==> Names(Mirror(s)[k]))
    && (k in Mirror(s) && Mirror(s)[k].g2.Some? ==> NoRepeats(Mirror(s)[k].g2.value))
    && (k in s.dram ==> NoRepeats(s.dram[k].slots))
  }

  /** A slot that recovery names holds the bytes of the key it is named for. */
  ghost predicate Sound2(s: Primary, k: BlockKey, x: Slot) {
    && (s.valid && Named2(Mirror(s), k, x) ==> x in s.held2 && s.held2[x] == k && x in s.bytes2 && s.bytes2[x] == k)
    && (k in s.dram && x in s.dram[k].slots ==>
          x in s.held2 && s.held2[x] == k && (s.dram[k].complete ==> x in s.bytes2 && s.bytes2[x] == k))
  }

  ghost predicate Sound3(s: Primary, k: BlockKey, x: nat) {
    && (s.valid && Named3(Mirror(s), k, x) ==> x in s.held3 && s.held3[x] == k && x in s.bytes3 && s.bytes3[x] == k)
    && (k in s.disk && x in s.disk[k] ==> x in s.held3 && s.held3[x] == k && x in s.bytes3 && s.bytes3[x] == k)
    && (k in s.writing && x in s.writing[k] ==> x in s.held3 && s.held3[x] == k)
  }

  /** A slot is free or somebody's; one being given back is the acting key's. */
  ghost predicate Slot2(s: Primary, x: Slot) {
    && (x in s.free2 <==> x in s.all2 && x !in s.held2)
    && (x in s.held2 ==> x in s.all2)
    && (!s.todo.Nothing? && x in s.todo.slots ==> x in s.held2 && s.held2[x] == s.todo.key && s.todo.key !in s.dram)
  }

  ghost predicate Slot3(s: Primary, x: nat) {
    && (x in s.free3 <==> x in s.all3 && x !in s.held3)
    && (x in s.held3 ==> x in s.all3)
    && (!s.todo.Nothing? && x in s.todo.disk ==>
          x in s.held3 && s.held3[x] == s.todo.key && s.todo.key !in s.disk && s.todo.key !in s.writing)
  }

  ghost predicate Inv(s: Primary) {
    && (!s.enabled ==> !s.valid)
    && (forall k :: InSync(s, k))
    && (forall k, x :: Sound2(s, k, x))
    && (forall k, x :: Sound3(s, k, x))
    && (forall x :: Slot2(s, x))
    && (forall x :: Slot3(s, x))
    && (forall k :: k in s.writing ==> k !in s.disk)
  }

  lemma PublishSync(s: Primary, accepted: bool)
    requires Inv(s) && Enabled(s, DoPublish(accepted))
    ensures forall k :: InSync(ApplyPublish(s, accepted), k)
  {
    var t := ApplyPublish(s, accepted);
    ReplayAppend(s.baseline, s.frames, (s.todo.key, Project(s, s.todo.key)));
    forall k ensures InSync(t, k) { assert InSync(s, k); }
  }

  lemma PublishKeeps(s: Primary, accepted: bool)
    requires Inv(s) && Enabled(s, DoPublish(accepted))
    ensures Inv(ApplyPublish(s, accepted))
  {
    var t := ApplyPublish(s, accepted);
    PublishSync(s, accepted);
    ReplayAppend(s.baseline, s.frames, (s.todo.key, Project(s, s.todo.key)));
    forall k, x ensures Sound2(t, k, x) { assert Sound2(s, k, x); }
    forall k, x ensures Sound3(t, k, x) { assert Sound3(s, k, x); }
    forall x ensures Slot2(t, x) { assert Slot2(s, x); }
    forall x ensures Slot3(t, x) { assert Slot3(s, x); }
  }

  lemma ReleaseKeeps(s: Primary)
    requires Inv(s) && Enabled(s, DoRelease)
    ensures Inv(ApplyRelease(s))
  {
    var t := ApplyRelease(s);
    assert InSync(s, s.todo.key);
    forall k ensures InSync(t, k) { assert InSync(s, k); }
    forall k, x ensures Sound2(t, k, x) { assert Sound2(s, k, x) && Slot2(s, x); }
    forall k, x ensures Sound3(t, k, x) { assert Sound3(s, k, x) && Slot3(s, x); }
    forall x ensures Slot2(t, x) { assert Slot2(s, x); }
    forall x ensures Slot3(t, x) { assert Slot3(s, x); }
  }

  lemma Reserve2Keeps(s: Primary, key: BlockKey, slots: seq<Slot>)
    requires Inv(s) && Enabled(s, Reserve2(key, slots))
    ensures Inv(ApplyReserve2(s, key, slots))
  {
    var t := ApplyReserve2(s, key, slots);
    forall k ensures InSync(t, k) { assert InSync(s, k); }
    forall k, x ensures Sound2(t, k, x) { assert Sound2(s, k, x) && Slot2(s, x); }
    forall k, x ensures Sound3(t, k, x) { assert Sound3(s, k, x); }
    forall x ensures Slot2(t, x) { assert Slot2(s, x); }
    forall x ensures Slot3(t, x) { assert Slot3(s, x); }
  }

  lemma Fill2Keeps(s: Primary, key: BlockKey)
    requires Inv(s) && Enabled(s, Fill2(key))
    ensures Inv(ApplyFill2(s, key))
  {
    var t := ApplyFill2(s, key);
    forall k ensures InSync(t, k) { assert InSync(s, k); }
    forall k, x ensures Sound2(t, k, x) { assert Sound2(s, k, x) && Sound2(s, key, x); }
    forall k, x ensures Sound3(t, k, x) { assert Sound3(s, k, x); }
    forall x ensures Slot2(t, x) { assert Slot2(s, x); }
    forall x ensures Slot3(t, x) { assert Slot3(s, x); }
  }

  lemma Abandon2Keeps(s: Primary, key: BlockKey)
    requires Inv(s) && Enabled(s, Abandon2(key))
    ensures Inv(ApplyAbandon2(s, key))
  {
    var t := ApplyAbandon2(s, key);
    forall k ensures InSync(t, k) { assert InSync(s, k); }
    forall k, x ensures Sound2(t, k, x) { assert Sound2(s, k, x); }
    forall k, x ensures Sound3(t, k, x) { assert Sound3(s, k, x); }
    forall x ensures Slot2(t, x) { assert Slot2(s, x) && Sound2(s, key, x); }
    forall x ensures Slot3(t, x) { assert Slot3(s, x); }
  }

  lemma Drop2Keeps(s: Primary, key: BlockKey)
    requires Inv(s) && Enabled(s, Drop2(key))
    ensures Inv(ApplyDrop2(s, key))
  {
    var t := ApplyDrop2(s, key);
    forall k ensures InSync(t, k) { assert InSync(s, k); }
    forall k, x ensures Sound2(t, k, x) { assert Sound2(s, k, x); }
    forall k, x ensures Sound3(t, k, x) { assert Sound3(s, k, x); }
    forall x ensures Slot2(t, x) { assert Slot2(s, x) && Sound2(s, key, x); }
    forall x ensures Slot3(t, x) { assert Slot3(s, x); }
  }

  lemma Reserve3Keeps(s: Primary, key: BlockKey, slots: seq<nat>)
    requires Inv(s) && Enabled(s, Reserve3(key, slots))
    ensures Inv(ApplyReserve3(s, key, slots))
  {
    var t := ApplyReserve3(s, key, slots);
    forall k ensures InSync(t, k) { assert InSync(s, k); }
    forall k, x ensures Sound2(t, k, x) { assert Sound2(s, k, x); }
    forall k, x ensures Sound3(t, k, x) { assert Sound3(s, k, x) && Slot3(s, x); }
    forall x ensures Slot2(t, x) { assert Slot2(s, x); }
    forall x ensures Slot3(t, x) { assert Slot3(s, x); }
  }

  lemma Commit3Keeps(s: Primary, key: BlockKey)
    requires Inv(s) && Enabled(s, Commit3(key))
    ensures Inv(ApplyCommit3(s, key))
  {
    var t := ApplyCommit3(s, key);
    forall k ensures InSync(t, k) { assert InSync(s, k); }
    forall k, x ensures Sound2(t, k, x) { assert Sound2(s, k, x); }
    forall k, x ensures Sound3(t, k, x) { assert Sound3(s, k, x) && Sound3(s, key, x); }
    forall x ensures Slot2(t, x) { assert Slot2(s, x); }
    forall x ensures Slot3(t, x) { assert Slot3(s, x); }
  }

  lemma Rollback3Keeps(s: Primary, key: BlockKey)
    requires Inv(s) && Enabled(s, Rollback3(key))
    ensures Inv(ApplyRollback3(s, key))
  {
    var t := ApplyRollback3(s, key);
    forall k ensures InSync(t, k) { assert InSync(s, k); }
    forall k, x ensures Sound2(t, k, x) { assert Sound2(s, k, x); }
    forall k, x ensures Sound3(t, k, x) { assert Sound3(s, k, x); }
    forall x ensures Slot2(t, x) { assert Slot2(s, x); }
    forall x ensures Slot3(t, x) { assert Slot3(s, x) && Sound3(s, key, x); }
  }

  lemma Drop3Keeps(s: Primary, key: BlockKey)
    requires Inv(s) && Enabled(s, Drop3(key))
    ensures Inv(ApplyDrop3(s, key))
  {
    var t := ApplyDrop3(s, key);
    forall k ensures InSync(t, k) { assert InSync(s, k); }
    forall k, x ensures Sound2(t, k, x) { assert Sound2(s, k, x); }
    forall k, x ensures Sound3(t, k, x) { assert Sound3(s, k, x); }
    forall x ensures Slot2(t, x) { assert Slot2(s, x); }
    forall x ensures Slot3(t, x) { assert Slot3(s, x) && Sound3(s, key, x); }
  }

  /** A position that recovery does not know of may change at will. */
  lemma MovedKeeps(s: Primary, key: BlockKey, position: map<BlockKey, int>)
    requires Inv(s) && !Names(Project(s, key)) && position - {key} == s.position - {key}
    ensures Inv(s.(position := position))
  {
    var t := s.(position := position);
    forall k ensures InSync(t, k) {
      assert k != key ==> (k in position <==> k in position - {key}) && (k in s.position <==> k in s.position - {key});
      assert InSync(s, k) && Known(t, k) == Known(s, k);
    }
    forall k, x ensures Sound2(t, k, x) { assert Sound2(s, k, x); }
    forall k, x ensures Sound3(t, k, x) { assert Sound3(s, k, x); }
    forall x ensures Slot2(t, x) { assert Slot2(s, x); }
    forall x ensures Slot3(t, x) { assert Slot3(s, x); }
  }

  lemma AlignedKeeps(s: Primary, key: BlockKey, position: int)
    requires Inv(s) && s.todo.Nothing?
    ensures Inv(s.(position := s.position[key := position], todo := Publish(key, [], [])))
  {
    var t := s.(position := s.position[key := position], todo := Publish(key, [], []));
    forall k ensures InSync(t, k) { assert InSync(s, k) && (k != key ==> Known(t, k) == Known(s, k)); }
    forall k, x ensures Sound2(t, k, x) { assert Sound2(s, k, x); }
    forall k, x ensures Sound3(t, k, x) { assert Sound3(s, k, x); }
    forall x ensures Slot2(t, x) { assert Slot2(s, x); }
    forall x ensures Slot3(t, x) { assert Slot3(s, x); }
  }

  lemma AlignKeeps(s: Primary, key: BlockKey, position: int)
    requires Inv(s) && Enabled(s, Align(key, position))
    ensures Inv(ApplyAlign(s, key, position))
  {
    if Names(Project(s, key)) {
      AlignedKeeps(s, key, position);
    } else {
      MovedKeeps(s, key, s.position[key := position]);
    }
  }

  lemma TakeOverSound(s: Primary)
    requires Inv(s)
    ensures var t := ApplyTakeOver(s);
      (forall k :: InSync(t, k)) && (forall k, x :: Sound2(t, k, x)) && (forall k, x :: Sound3(t, k, x))
  {
    var t := ApplyTakeOver(s);
    forall k ensures InSync(t, k) { assert InSync(s, k); }
    forall k, x ensures Sound2(t, k, x) { assert Sound2(s, k, x) && Slot2(s, x); }
    forall k, x ensures Sound3(t, k, x) { assert Sound3(s, k, x) && Slot3(s, x); }
  }

  /** Whoever takes over at any point starts consistent. */
  lemma TakeOverKeeps(s: Primary)
    requires Inv(s)
    ensures Inv(ApplyTakeOver(s))
  {
    var t, m := ApplyTakeOver(s), Survivors(s);
    TakeOverSound(s);
    forall x ensures Slot2(t, x) {
      assert Slot2(s, x);
      if k :| Named2(m, k, x) { assert Sound2(s, k, x); }
    }
    forall x ensures Slot3(t, x) {
      assert Slot3(s, x);
      if k :| Named3(m, k, x) { assert Sound3(s, k, x); }
    }
  }

  lemma StepKeeps(s: Primary, step: Step)
    requires Inv(s) && Enabled(s, step)
    ensures Inv(Apply(s, step))
  {
    match step
    case Reserve2(key, slots) => Reserve2Keeps(s, key, slots);
    case Fill2(key) => Fill2Keeps(s, key);
    case Abandon2(key) => Abandon2Keeps(s, key);
    case Drop2(key) => Drop2Keeps(s, key);
    case Reserve3(key, slots) => Reserve3Keeps(s, key, slots);
    case Commit3(key) => Commit3Keeps(s, key);
    case Rollback3(key) => Rollback3Keeps(s, key);
    case Drop3(key) => Drop3Keeps(s, key);
    case Align(key, position) => AlignKeeps(s, key, position);
    case Prune(key) => MovedKeeps(s, key, s.position - {key});
    case DoPublish(accepted) => PublishKeeps(s, accepted);
    case DoRelease => ReleaseKeeps(s);
    case TakeOver => TakeOverKeeps(s);
  }

  ghost predicate CanRun(s: Primary, steps: seq<Step>)
    decreases |steps|
  {
    steps == [] || (Enabled(s, steps[0]) && CanRun(Apply(s, steps[0]), steps[1..]))
  }

  ghost function After(s: Primary, steps: seq<Step>): Primary
    requires CanRun(s, steps)
    decreases |steps|
  {
    if steps == [] then s else After(Apply(s, steps[0]), steps[1..])
  }

  lemma {:induction false} RunKeeps(s: Primary, steps: seq<Step>)
    requires Inv(s) && CanRun(s, steps)
    ensures Inv(After(s, steps))
    decreases |steps|
  {
    if steps != [] {
      StepKeeps(s, steps[0]);
      RunKeeps(Apply(s, steps[0]), steps[1..]);
    }
  }

  /** The first holder of a cold pool. */
  function Cold(all2: set<Slot>, all3: set<nat>): Primary {
    Primary(all2, all3, map[], map[], map[], map[], all2, all3, map[], map[], map[], map[], map[], [], true, true,
            Nothing)
  }

  lemma ColdInv(all2: set<Slot>, all3: set<nat>)
    ensures Inv(Cold(all2, all3))
  {
    var s := Cold(all2, all3);
    assert Mirror(s) == map[];
    forall k ensures InSync(s, k) { }
    forall k, x ensures Sound2(s, k, x) { }
    forall k, x ensures Sound3(s, k, x) { }
    forall x ensures Slot2(s, x) { }
    forall x ensures Slot3(s, x) { }
  }

  ghost predicate Used2(s: Primary, j: BlockKey, x: Slot) { j in s.dram && x in s.dram[j].slots }

  /** The disk slot is a resident block's, or is being written for one. */
  ghost predicate Used3(s: Primary, j: BlockKey, x: nat) {
    (j in s.disk && x in s.disk[j]) || (j in s.writing && x in s.writing[j])
  }

  /** What a take-over at this very point would find. Between actions it is exactly the block
      table's recoverable half. At any point, a slot it names is not free, is not being filled
      for another key, is not named for another key, and holds the bytes of the key it is named
      for. A journal that has been flagged leaves nothing. */
  ghost predicate Recoverable(s: Primary) {
    var m := Survivors(s);
    && (s.valid && s.todo.Nothing? ==> forall k :: At(m, k) == Known(s, k))
    && (!s.valid ==> m == map[])
    && (forall k, x :: Named2(m, k, x) ==> x in s.all2 && x !in s.free2 && x in s.bytes2 && s.bytes2[x] == k)
    && (forall k, x :: Named3(m, k, x) ==> x in s.all3 && x !in s.free3 && x in s.bytes3 && s.bytes3[x] == k)
    && (forall j, k, x :: Named2(m, k, x) && Named2(m, j, x) ==> j == k)
    && (forall j, k, x :: Named2(m, k, x) && Used2(s, j, x) ==> j == k)
    && (forall j, k, x :: Named3(m, k, x) && Named3(m, j, x) ==> j == k)
    && (forall j, k, x :: Named3(m, k, x) && Used3(s, j, x) ==> j == k)
  }

  lemma InvRecoverable(s: Primary)
    requires Inv(s)
    ensures Recoverable(s)
  {
    var m := Survivors(s);
    forall k ensures s.valid && s.todo.Nothing? ==> At(m, k) == Known(s, k) { assert InSync(s, k); }
    forall k, x | Named2(m, k, x)
      ensures x in s.all2 && x !in s.free2 && x in s.bytes2 && s.bytes2[x] == k && x in s.held2 && s.held2[x] == k
    {
      assert Sound2(s, k, x) && Slot2(s, x);
    }
    forall k, x | Named3(m, k, x)
      ensures x in s.all3 && x !in s.free3 && x in s.bytes3 && s.bytes3[x] == k && x in s.held3 && s.held3[x] == k
    {
      assert Sound3(s, k, x) && Slot3(s, x);
    }
    forall j, k, x | Named2(m, k, x) && Named2(m, j, x) ensures j == k {
      assert Sound2(s, k, x) && Sound2(s, j, x);
    }
    forall j, k, x | Named2(m, k, x) && Used2(s, j, x) ensures j == k {
      assert Sound2(s, k, x) && Sound2(s, j, x);
    }
    forall j, k, x | Named3(m, k, x) && Named3(m, j, x) ensures j == k {
      assert Sound3(s, k, x) && Sound3(s, j, x);
    }
    forall j, k, x | Named3(m, k, x) && Used3(s, j, x) ensures j == k {
      assert Sound3(s, k, x) && Sound3(s, j, x);
    }
  }

  /** In every run, over any number of generations and wherever each of them dies. */
  lemma EveryCrashIsRecoverable(all2: set<Slot>, all3: set<nat>, steps: seq<Step>)
    requires CanRun(Cold(all2, all3), steps)
    ensures Recoverable(After(Cold(all2, all3), steps))
  {
    ColdInv(all2, all3);
    RunKeeps(Cold(all2, all3), steps);
    InvRecoverable(After(Cold(all2, all3), steps));
  }

  /** Between actions a take-over loses nothing: the next holder knows of every block exactly
      what the table said. */
  lemma TakeOverLosesNothing(s: Primary, k: BlockKey)
    requires Inv(s) && s.valid && s.todo.Nothing?
    ensures Known(ApplyTakeOver(s), k) == Known(s, k)
  {
    assert InSync(s, k);
    TakeOverKeeps(s);
    assert InSync(ApplyTakeOver(s), k);
  }

  /** A block that was filled and published survives the primary's death at once: the next
      holder has its slots, and they hold its bytes. */
  lemma PublishedBlockSurvives(s: Primary, key: BlockKey)
    requires Inv(s) && s.valid && Enabled(s, Fill2(key))
    ensures var t := ApplyTakeOver(ApplyPublish(ApplyFill2(s, key), true));
      && key in t.dram && t.dram[key] == Dram(s.dram[key].slots, true)
      && forall x :: x in s.dram[key].slots ==> x in t.bytes2 && t.bytes2[x] == key
  {
    var filled := ApplyFill2(s, key);
    Fill2Keeps(s, key);
    var published := ApplyPublish(filled, true);
    PublishKeeps(filled, true);
    assert InSync(published, key);
  }
}
