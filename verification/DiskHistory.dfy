/**
 The disk tier over time: slots are reserved, written unit by unit, committed, evicted, and
 written again for other blocks. What a resident block's slots held when it was committed is
 what any later read finds there.
 */
module DiskHistory {
  import opened Prelude
  import opened Layouts
  import opened Frames
  import opened DiskContent
  import D = DiskStore

  /** The files, slot by slot; and, as history, what each resident block was committed with. */
  datatype Store = Store(d: D.Disk, files: Files, committed: map<BlockKey, seq<seq<Byte>>>)

  /** How many files there are, how many slots each has, and how long a slot is. */
  datatype Geometry = Geometry(files: nat, perFile: nat, unit: nat)

  datatype Step =
    | Begin(key: BlockKey)
    | TakeSlot
    | Evict(key: BlockKey)
    | GiveUp
    | Reserve
    | WriteUnit(key: BlockKey, index: nat, bytes: seq<Byte>)
    | Commit(key: BlockKey, scored: bool)
    | Rollback(key: BlockKey)
    | Claim(key: BlockKey)
    | Unclaim(key: BlockKey, scored: bool)
    | Rescore(key: BlockKey, scored: bool)

  predicate Enabled(s: Store, step: Step) {
    match step
    case Begin(k) => s.d.taking.NoTaking? && k !in s.d.resident && k !in s.d.pending
    case TakeSlot => s.d.taking.Taking? && s.d.free != []
    case Evict(k) => k in s.d.evictable && k in s.d.resident
    case GiveUp => s.d.taking.Taking?
    case Reserve => s.d.taking.Taking? && s.d.taking.slots != []
    case WriteUnit(k, i, bytes) => k in s.d.pending && i < |s.d.pending[k]|
    case Commit(k, scored) => k in s.d.pending
    case Rollback(k) => k in s.d.pending
    case Claim(k) => k in s.d.resident
    case Unclaim(k, scored) => k in s.d.resident && s.d.resident[k].claims > 0
    case Rescore(k, scored) => k in s.d.unscored && k in s.d.resident
  }

  function PlacesOf(g: Geometry, slots: seq<nat>): seq<Place>
    requires g.files > 0
  {
    Places(slots, g.files, g.unit)
  }

  function Apply(g: Geometry, s: Store, step: Step): Store
    requires g.files > 0 && Enabled(s, step)
  {
    match step
    case Begin(k) => s.(d := s.d.(taking := D.Taking(k, [])))
    case TakeSlot => s.(d := D.Pop(s.d))
    case Evict(k) => s.(d := D.Evicted(s.d, k))
    case GiveUp => s.(d := D.Dropped(s.d))
    case Reserve => s.(d := D.Reserved(s.d))
    case WriteUnit(k, i, bytes) => s.(files := s.files[Descriptor(s.d.pending[k][i], g.files, g.unit) := bytes])
    case Commit(k, scored) =>
      s.(d := D.Committed(s.d, k, scored), committed := s.committed[k := Get(s.files, PlacesOf(g, s.d.pending[k]))])
    case Rollback(k) => s.(d := D.RolledBack(s.d, k))
    case Claim(k) => s.(d := D.Claimed(s.d, k))
    case Unclaim(k, scored) => s.(d := D.Released(s.d, k, scored))
    case Rescore(k, scored) => s.(d := D.Ranked(s.d, k, scored))
  }

  ghost predicate ContentOk(g: Geometry, s: Store, k: BlockKey)
    requires g.files > 0
  {
    k in s.d.resident ==> k in s.committed && Get(s.files, PlacesOf(g, s.d.resident[k].slots)) == s.committed[k]
  }

  ghost predicate Inv(g: Geometry, s: Store) {
    && g.files > 0 && g.unit > 0 && s.d.total == g.files * g.perFile
    && D.Inv(s.d) && forall k :: ContentOk(g, s, k)
  }

  /** A unit written for a pending block is no unit of a resident one. */
  lemma WriteMisses(g: Geometry, s: Store, key: BlockKey, index: nat, bytes: seq<Byte>, k: BlockKey)
    requires Inv(g, s) && Enabled(s, WriteUnit(key, index, bytes)) && k in s.d.resident
    ensures var t := Apply(g, s, WriteUnit(key, index, bytes));
      Get(t.files, PlacesOf(g, s.d.resident[k].slots)) == Get(s.files, PlacesOf(g, s.d.resident[k].slots))
  {
    var slots, x := s.d.resident[k].slots, s.d.pending[key][index];
    assert D.KeyOk(s.d, k) && D.KeyOk(s.d, key) && D.HoldOk(s.d, key, x) && D.SlotOk(s.d, x);
    forall i | 0 <= i < |slots| ensures Descriptor(slots[i], g.files, g.unit) != Descriptor(x, g.files, g.unit) {
      assert D.HoldOk(s.d, k, slots[i]) && D.SlotOk(s.d, slots[i]);
      OtherPlace(slots[i], x, g.files, g.perFile, g.unit);
    }
  }

  lemma AccountingKeeps(g: Geometry, s: Store, step: Step)
    requires Inv(g, s) && Enabled(s, step)
    ensures D.Inv(Apply(g, s, step).d) && Apply(g, s, step).d.total == s.d.total
  {
    match step
    case Begin(k) => D.StartKeeps(s.d, k);
    case TakeSlot => D.PopKeeps(s.d);
    case Evict(k) => D.EvictedKeeps(s.d, k);
    case GiveUp => D.DroppedKeeps(s.d);
    case Reserve => D.ReservedKeeps(s.d);
    case WriteUnit(k, i, bytes) =>
    case Commit(k, scored) => D.CommittedKeeps(s.d, k, scored);
    case Rollback(k) => D.RolledBackKeeps(s.d, k);
    case Claim(k) => D.ClaimedKeeps(s.d, k);
    case Unclaim(k, scored) => D.ReleasedKeeps(s.d, k, scored);
    case Rescore(k, scored) => D.RescoredKeeps(s.d, k, scored);
  }

  /** A resident block that is not evicted keeps its slots; only a commit adds one. */
  lemma ResidentStays(g: Geometry, s: Store, step: Step, k: BlockKey)
    requires Inv(g, s) && Enabled(s, step)
    ensures var t := Apply(g, s, step);
      && (k in s.d.resident && step != Evict(k) ==>
          k in t.d.resident && t.d.resident[k].slots == s.d.resident[k].slots && t.committed.Keys >= s.committed.Keys
          && (k in s.committed ==> t.committed[k] == s.committed[k]))
      && (k in t.d.resident && k !in s.d.resident ==> step.Commit? && step.key == k)
  {
    assert D.KeyOk(s.d, k);
  }

  lemma StepKeeps(g: Geometry, s: Store, step: Step)
    requires Inv(g, s) && Enabled(s, step)
    ensures Inv(g, Apply(g, s, step))
  {
    var t := Apply(g, s, step);
    AccountingKeeps(g, s, step);
    forall k ensures ContentOk(g, t, k) {
      assert ContentOk(g, s, k);
      ResidentStays(g, s, step, k);
      if step.WriteUnit? && k in s.d.resident {
        WriteMisses(g, s, step.key, step.index, step.bytes, k);
      }
    }
  }

  ghost predicate CanRun(g: Geometry, s: Store, steps: seq<Step>)
    requires g.files > 0
    decreases |steps|
  {
    steps == [] || (Enabled(s, steps[0]) && CanRun(g, Apply(g, s, steps[0]), steps[1..]))
  }

  ghost function After(g: Geometry, s: Store, steps: seq<Step>): Store
    requires g.files > 0 && CanRun(g, s, steps)
    decreases |steps|
  {
    if steps == [] then s else After(g, Apply(g, s, steps[0]), steps[1..])
  }

  /** Whatever is reserved, written, committed, rolled back, evicted and reused meanwhile: the slots
      of a block that is not itself evicted read as they did when it was committed. */
  lemma {:induction false} LaterReadsAgree(g: Geometry, s: Store, steps: seq<Step>, k: BlockKey)
    requires Inv(g, s) && CanRun(g, s, steps) && k in s.d.resident && Evict(k) !in steps
    ensures var t := After(g, s, steps);
      && Inv(g, t) && k in t.d.resident && t.d.resident[k].slots == s.d.resident[k].slots
      && Get(t.files, PlacesOf(g, t.d.resident[k].slots)) == Get(s.files, PlacesOf(g, s.d.resident[k].slots))
    decreases |steps|
  {
    if steps != [] {
      var next := Apply(g, s, steps[0]);
      StepKeeps(g, s, steps[0]);
      ResidentStays(g, s, steps[0], k);
      assert ContentOk(g, s, k) && ContentOk(g, next, k);
      LaterReadsAgree(g, next, steps[1..], k);
    }
  }

  // -- How long a block is pending, and how long resident.

  predicate Reserves(s: Store, step: Step, k: BlockKey) { step == Reserve && s.d.taking.Taking? && s.d.taking.key == k }

  /** A block is pending from its reservation to its commit or rollback, with the slots that were collected
      for it, and resident from there to its eviction, with the same slots. */
  lemma LifeStep(g: Geometry, s: Store, step: Step, k: BlockKey)
    requires Inv(g, s) && Enabled(s, step)
    ensures var d, e := s.d, Apply(g, s, step).d;
      var commits := step.Commit? && step.key == k;
      && (k in e.pending <==> Reserves(s, step, k) || (k in d.pending && !commits && step != Rollback(k)))
      && (Reserves(s, step, k) ==> e.pending[k] == d.taking.slots)
      && (k in d.pending && k in e.pending ==> e.pending[k] == d.pending[k])
      && (k in e.resident <==> commits || (k in d.resident && step != Evict(k)))
      && (commits ==> e.resident[k].slots == d.pending[k])
      && (k in d.resident && k in e.resident ==> e.resident[k].slots == d.resident[k].slots)
  {
    assert D.KeyOk(s.d, k);
  }

  // -- From the reservation on.

  /** The bytes last written to a unit of a block. */
  function LastWrite(steps: seq<Step>, key: BlockKey, i: nat): Option<seq<Byte>> {
    if steps == [] then None
    else
      match LastWrite(steps[1..], key, i)
      case Some(bytes) => Some(bytes)
      case None =>
        if steps[0].WriteUnit? && (steps[0].key, steps[0].index) == (key, i) then Some(steps[0].bytes) else None
  }

  /** Neither committed nor rolled back. */
  ghost predicate StaysPending(steps: seq<Step>, key: BlockKey) {
    forall i :: 0 <= i < |steps| ==> !(steps[i].Commit? && steps[i].key == key) && steps[i] != Rollback(key)
  }

  lemma PendingStays(g: Geometry, s: Store, step: Step, key: BlockKey)
    requires Inv(g, s) && Enabled(s, step) && key in s.d.pending && StaysPending([step], key)
    ensures var t := Apply(g, s, step); key in t.d.pending && t.d.pending[key] == s.d.pending[key]
  {
    assert D.KeyOk(s.d, key) && [step][0] == step;
  }

  function PlaceOf(g: Geometry, s: Store, key: BlockKey, i: nat): Place
    requires g.files > 0 && key in s.d.pending && i < |s.d.pending[key]|
  {
    Descriptor(s.d.pending[key][i], g.files, g.unit)
  }

  /** Of all writes, only those to this very unit of this very block reach its place. */
  lemma WriteReaches(g: Geometry, s: Store, key: BlockKey, i: nat, other: BlockKey, j: nat)
    requires Inv(g, s) && key in s.d.pending && i < |s.d.pending[key]|
    requires other in s.d.pending && j < |s.d.pending[other]|
    ensures PlaceOf(g, s, key, i) == PlaceOf(g, s, other, j) <==> (key, i) == (other, j)
  {
    var x, y := s.d.pending[key][i], s.d.pending[other][j];
    assert D.KeyOk(s.d, key) && D.HoldOk(s.d, key, x) && D.SlotOk(s.d, x);
    assert D.KeyOk(s.d, other) && D.HoldOk(s.d, other, y) && D.SlotOk(s.d, y);
    if (key, i) != (other, j) {
      OtherPlace(x, y, g.files, g.perFile, g.unit);
    }
  }

  /** Whatever goes on around it, a unit of a pending block holds what was last written to it. */
  lemma {:induction false} UnitHolds(g: Geometry, s: Store, steps: seq<Step>, key: BlockKey, i: nat)
    requires Inv(g, s) && CanRun(g, s, steps) && StaysPending(steps, key)
    requires key in s.d.pending && i < |s.d.pending[key]|
    ensures var t, place := After(g, s, steps), PlaceOf(g, s, key, i);
      && Inv(g, t) && key in t.d.pending && t.d.pending[key] == s.d.pending[key]
      && (LastWrite(steps, key, i).Some? ==> place in t.files && t.files[place] == LastWrite(steps, key, i).value)
      && (LastWrite(steps, key, i).None? ==>
          (place in t.files <==> place in s.files) && (place in s.files ==> t.files[place] == s.files[place]))
    decreases |steps|
  {
    if steps != [] {
      var next := Apply(g, s, steps[0]);
      StepKeeps(g, s, steps[0]);
      PendingStays(g, s, steps[0], key);
      if steps[0].WriteUnit? {
        WriteReaches(g, s, key, i, steps[0].key, steps[0].index);
      }
      UnitHolds(g, next, steps[1..], key, i);
    }
  }

  /** The last write to each unit of the block carried the matching piece of its memory. */
  ghost predicate WritesAll(steps: seq<Step>, key: BlockKey, units: seq<seq<Byte>>) {
    forall i :: 0 <= i < |units| ==> LastWrite(steps, key, i) == Some(units[i])
  }

  lemma WrittenUnits(g: Geometry, s: Store, filling: seq<Step>, scored: bool, key: BlockKey, units: seq<seq<Byte>>)
    requires Inv(g, s) && CanRun(g, s, filling) && key in s.d.pending && StaysPending(filling, key)
    requires |s.d.pending[key]| == |units| && WritesAll(filling, key, units)
    ensures Enabled(After(g, s, filling), Commit(key, scored))
    ensures var t := Apply(g, After(g, s, filling), Commit(key, scored));
      && Inv(g, t) && key in t.d.resident && t.d.resident[key].slots == s.d.pending[key]
      && t.committed[key] == Get(t.files, PlacesOf(g, s.d.pending[key])) == units
  {
    var slots := s.d.pending[key];
    assert D.KeyOk(s.d, key);
    UnitHolds(g, s, filling, key, 0);
    var full := After(g, s, filling);
    StepKeeps(g, full, Commit(key, scored));
    var read := Get(full.files, PlacesOf(g, slots));
    forall i | 0 <= i < |units| ensures read[i] == units[i] {
      UnitHolds(g, s, filling, key, i);
      assert LastWrite(filling, key, i) == Some(units[i]);
    }
    assert read == units;
  }

  /** So a block whose units were all written after it was reserved, in whatever order and however
      often, among whatever else, and which was then committed, is read back as it was stored,
      however much later and in whatever selection of its labels. */
  lemma StoredBlockReadsBack(g: Geometry, s: Store, filling: seq<Step>, scored: bool, later: seq<Step>, key: BlockKey,
                             layout: seq<Label>, sizes: map<string, nat>, content: seq<seq<Byte>>,
                             requested: seq<Label>, indices: seq<nat>, k: nat)
    requires Inv(g, s) && CanRun(g, s, filling) && key in s.d.pending && StaysPending(filling, key)
    requires IsContent(content, layout, sizes, g.unit)
    requires |s.d.pending[key]| == Sum(Widths(layout, sizes, g.unit))
    requires WritesAll(filling, key, Units(content, g.unit))
    requires key in After(g, s, filling).d.pending
    requires CanRun(g, Apply(g, After(g, s, filling), Commit(key, scored)), later) && Evict(key) !in later
    requires LayoutIndices(layout, requested) == Some(indices) && k < |requested|
    ensures k < |indices| && indices[k] < |layout| && layout[indices[k]] == requested[k]
    ensures var t := After(g, Apply(g, After(g, s, filling), Commit(key, scored)), later);
      var widths := Widths(layout, sizes, g.unit);
      && key in t.d.resident && Sum(widths[..indices[k]]) + widths[indices[k]] <= |t.d.resident[key].slots|
      && Join(Get(t.files, PlacesOf(g, Piece(widths, t.d.resident[key].slots, indices[k])))) == content[indices[k]]
  {
    var units := Units(content, g.unit);
    ContentFits(content, layout, sizes, g.unit);
    UnitsCount(content, Widths(layout, sizes, g.unit), g.unit);
    WrittenUnits(g, s, filling, scored, key, units);
    var stored := Apply(g, After(g, s, filling), Commit(key, scored));
    LaterReadsAgree(g, stored, later, key);
    var t := After(g, stored, later);
    ContentReadsBack(t.files, layout, sizes, t.d.resident[key].slots, content, g.files, g.unit, requested, indices, k);
  }
}
