/**
 What a Guard promotes, end to end: the primary's changes travel as byte frames through the
 shared ring, are decoded one by one into the mirror, and the mirror becomes the table that is
 served and that the next primary starts from.
 */
module Promotion {
  import opened Prelude
  import opened RecoveryRecords
  import opened Frames
  import opened Mirroring
  import Ring = RingInterleaving
  import Crash = CrashConsistency

  // -- The primary, the ring and the Guard's mirror together.

  datatype System = System(p: Crash.Primary, r: Ring.State, mirror: Option<Table>)

  /** The primary acts, and publishes through the ring byte by byte; the Guard reads the ring
      byte by byte and decodes what it has read into its mirror. The primary may die anywhere, and
      once the Guard has read what it left, the next one starts from the Guard's table. */
  datatype Step = Act(step: Crash.Step) | Begin | Store | Release | Skip | Die | Read | Copy | Judge | TakeOver

  /** The change that is to be published. */
  function Pending(p: Crash.Primary): Change
    requires p.todo.Publish?
  {
    (p.todo.key, Crash.Project(p, p.todo.key))
  }

  predicate Enabled(c: Codec, s: System, step: Step) {
    match step
    case Act(x) =>
      && (s.r.producer.Idle? || s.r.producer.Disabled?)
      && Crash.Enabled(s.p, x) && !x.DoPublish? && !x.TakeOver?
    case Begin => s.p.todo.Publish? && Ring.Enabled(s.r, Ring.BeginPublish(Wire(c, Pending(s.p))))
    case Store => Ring.Enabled(s.r, Ring.StoreByte)
    case Release => s.p.todo.Publish? && Ring.Enabled(s.r, Ring.ReleasePublished)
    case Skip => s.p.todo.Publish? && s.r.producer.Disabled?
    case Die => Ring.Enabled(s.r, Ring.ProducerDies)
    case Read => Ring.Enabled(s.r, Ring.BeginRead)
    case Copy => Ring.Enabled(s.r, Ring.CopyByte)
    case Judge => Ring.Enabled(s.r, Ring.JudgeFrame)
    case TakeOver => IsDrained(s)
  }

  /** The primary is gone and the Guard has read everything it published. */
  predicate IsDrained(s: System) { s.r.producer.Gone? && s.r.consumer.Resting? && s.r.consumed == s.r.published }

  /** What the Guard makes of it: nothing, if the journal is flagged or a frame did not decode. */
  function Promoted(s: System): Table {
    if s.r.invalid || s.mirror.None? then map[] else s.mirror.value
  }

  ghost function Apply(c: Codec, s: System, step: Step): System
    requires Enabled(c, s, step)
  {
    match step
    case Act(x) => s.(p := Crash.Apply(s.p, x))
    case Begin =>
      var r := Ring.Apply(s.r, Ring.BeginPublish(Wire(c, Pending(s.p))));
      if r.producer.Disabled? then s.(r := r, p := Crash.ApplyPublish(s.p, false)) else s.(r := r)
    case Store => s.(r := Ring.Apply(s.r, Ring.StoreByte))
    case Release => s.(r := Ring.Apply(s.r, Ring.ReleasePublished), p := Crash.ApplyPublish(s.p, true))
    case Skip => s.(p := Crash.ApplyPublish(s.p, false))
    case Die => s.(r := Ring.Apply(s.r, Ring.ProducerDies))
    case Read => s.(r := Ring.Apply(s.r, Ring.BeginRead))
    case Copy => s.(r := Ring.Apply(s.r, Ring.CopyByte))
    case Judge =>
      var r := Ring.Apply(s.r, Ring.JudgeFrame);
      if |r.delivered| > |s.r.delivered| then s.(r := r, mirror := Take(c, s.mirror, r.delivered[|s.r.delivered|]))
      else s.(r := r)
    case TakeOver => System(Crash.Resumed(s.p, Promoted(s)), Ring.Initial(s.r.mem), Some(Promoted(s)))
  }

  /** How the three hang together. */
  ghost predicate Coupled(c: Codec, s: System) {
    && s.r.accepted == WireAll(c, s.p.frames)
    && s.r.invalid == !s.p.valid && s.r.rejected == s.r.invalid
    && s.mirror == Mirrored(c, s.p.baseline, s.r.delivered)
    && (!s.r.producer.Gone? ==> (s.r.producer.Disabled? <==> !s.p.enabled))
    && (s.r.producer.Filling? ==> s.p.todo.Publish? && s.r.producer.frame == Wire(c, Pending(s.p)))
  }

  ghost predicate Inv(c: Codec, s: System) { Crash.Inv(s.p) && Ring.Inv(s.r) && Coupled(c, s) }

  /** The Guard's table is what the primary's own journal says has survived. */
  lemma DrainedIsSurvivors(c: Codec, s: System)
    requires Faithful(c) && Inv(c, s) && IsDrained(s)
    ensures Promoted(s) == Crash.Survivors(s.p) && (!s.r.invalid ==> s.mirror.Some?)
  {
    EncodeAligned(Ring.Queue(s.r));
    assert s.r.delivered == s.r.accepted;
    MirroredIsReplay(c, s.p.baseline, s.p.frames);
  }

  lemma ActKeeps(c: Codec, s: System, x: Crash.Step)
    requires Inv(c, s) && Enabled(c, s, Act(x))
    ensures Inv(c, Apply(c, s, Act(x)))
  {
    Crash.StepKeeps(s.p, x);
    ActLeavesJournal(s.p, x);
  }

  lemma ActLeavesJournal(p: Crash.Primary, x: Crash.Step)
    requires Crash.Enabled(p, x) && !x.DoPublish? && !x.TakeOver?
    ensures Crash.SameJournal(p, Crash.Apply(p, x))
  {
  }

  lemma BeginKeeps(c: Codec, s: System)
    requires Inv(c, s) && Enabled(c, s, Begin)
    ensures Inv(c, Apply(c, s, Begin))
  {
    Ring.StepRefinesQueue(s.r, Ring.BeginPublish(Wire(c, Pending(s.p))));
    Crash.PublishKeeps(s.p, false);
  }

  lemma ReleaseKeeps(c: Codec, s: System)
    requires Inv(c, s) && Enabled(c, s, Release)
    ensures Inv(c, Apply(c, s, Release))
  {
    Ring.StepRefinesQueue(s.r, Ring.ReleasePublished);
    Crash.PublishKeeps(s.p, true);
    WireAppend(c, s.p.frames, Pending(s.p));
  }

  lemma JudgeKeeps(c: Codec, s: System)
    requires Inv(c, s) && Enabled(c, s, Judge)
    ensures Inv(c, Apply(c, s, Judge))
  {
    Ring.StepRefinesQueue(s.r, Ring.JudgeFrame);
    Ring.NeverMalformed(s.r);
    var r := Ring.Apply(s.r, Ring.JudgeFrame);
    TakenIsMirrored(c, s.p.baseline, s.r.delivered, r.delivered[|s.r.delivered|]);
  }

  lemma TakeOverKeeps(c: Codec, s: System)
    requires Faithful(c) && Inv(c, s) && Enabled(c, s, TakeOver)
    ensures Inv(c, Apply(c, s, TakeOver)) && Apply(c, s, TakeOver).p == Crash.ApplyTakeOver(s.p)
  {
    DrainedIsSurvivors(c, s);
    Crash.TakeOverKeeps(s.p);
    InitialInv(s.r.mem);
  }

  lemma InitialInv(mem: seq<Byte>)
    requires |mem| > 0
    ensures Ring.Inv(Ring.Initial(mem))
  {
    assert Ring.Queue(Ring.Initial(mem)) == [];
  }

  lemma StepKeeps(c: Codec, s: System, step: Step)
    requires Faithful(c) && Inv(c, s) && Enabled(c, s, step)
    ensures Inv(c, Apply(c, s, step))
  {
    match step
    case Act(x) => ActKeeps(c, s, x);
    case Begin => BeginKeeps(c, s);
    case Store => Ring.StepRefinesQueue(s.r, Ring.StoreByte);
    case Release => ReleaseKeeps(c, s);
    case Skip => Crash.PublishKeeps(s.p, false);
    case Die => Ring.StepRefinesQueue(s.r, Ring.ProducerDies);
    case Read => Ring.StepRefinesQueue(s.r, Ring.BeginRead);
    case Copy => Ring.StepRefinesQueue(s.r, Ring.CopyByte);
    case Judge => JudgeKeeps(c, s);
    case TakeOver => TakeOverKeeps(c, s);
  }

  ghost predicate CanRun(c: Codec, s: System, steps: seq<Step>)
    decreases |steps|
  {
    steps == [] || (Enabled(c, s, steps[0]) && CanRun(c, Apply(c, s, steps[0]), steps[1..]))
  }

  ghost function After(c: Codec, s: System, steps: seq<Step>): System
    requires CanRun(c, s, steps)
    decreases |steps|
  {
    if steps == [] then s else After(c, Apply(c, s, steps[0]), steps[1..])
  }

  lemma {:induction false} RunKeeps(c: Codec, s: System, steps: seq<Step>)
    requires Faithful(c) && Inv(c, s) && CanRun(c, s, steps)
    ensures Inv(c, After(c, s, steps))
    decreases |steps|
  {
    if steps != [] {
      StepKeeps(c, s, steps[0]);
      RunKeeps(c, Apply(c, s, steps[0]), steps[1..]);
    }
  }

  /** A cold pool and an empty ring. */
  function Cold(all2: set<Slot>, all3: set<nat>, mem: seq<Byte>): System {
    System(Crash.Cold(all2, all3), Ring.Initial(mem), Some(map[]))
  }

  lemma ColdInv(c: Codec, all2: set<Slot>, all3: set<nat>, mem: seq<Byte>)
    requires |mem| > 0
    ensures Inv(c, Cold(all2, all3, mem))
  {
    Crash.ColdInv(all2, all3);
    InitialInv(mem);
  }

  /** Over any number of generations, wherever each of them died, down to the byte of the ring it
      was storing, and however the Guard's reading fell in between: once the Guard has read the
      ring empty, what it promotes is sound for the memory as the dead primary left it. A slot it
      names is not free, holds the bytes of the key it is named for, and is nobody else's. And if
      no publication was refused and the primary died between two actions, it is exactly what
      the block table held that can be recovered. */
  lemma PromotedTableIsSound(c: Codec, all2: set<Slot>, all3: set<nat>, mem: seq<Byte>, steps: seq<Step>)
    requires Faithful(c) && |mem| > 0 && CanRun(c, Cold(all2, all3, mem), steps)
    requires IsDrained(After(c, Cold(all2, all3, mem), steps))
    ensures var s := After(c, Cold(all2, all3, mem), steps);
      var m := Promoted(s);
      && (forall k, x :: Crash.Named2(m, k, x) ==>
            x in s.p.all2 && x !in s.p.free2 && x in s.p.bytes2 && s.p.bytes2[x] == k)
      && (forall k, x :: Crash.Named3(m, k, x) ==>
            x in s.p.all3 && x !in s.p.free3 && x in s.p.bytes3 && s.p.bytes3[x] == k)
      && (forall j, k, x :: Crash.Named2(m, k, x) && Crash.Named2(m, j, x) ==> j == k)
      && (forall j, k, x :: Crash.Named2(m, k, x) && Crash.Used2(s.p, j, x) ==> j == k)
      && (forall j, k, x :: Crash.Named3(m, k, x) && Crash.Named3(m, j, x) ==> j == k)
      && (forall j, k, x :: Crash.Named3(m, k, x) && Crash.Used3(s.p, j, x) ==> j == k)
      && (!s.r.rejected && s.p.todo.Nothing? ==> forall k :: Crash.At(m, k) == Crash.Known(s.p, k))
  {
    ColdInv(c, all2, all3, mem);
    RunKeeps(c, Cold(all2, all3, mem), steps);
    var s := After(c, Cold(all2, all3, mem), steps);
    DrainedIsSurvivors(c, s);
    Crash.InvRecoverable(s.p);
  }
}
