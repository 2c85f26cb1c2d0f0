/**
 The recovery state of a Guard over its whole life: claims, primaries that publish and die or
 fall silent, promotion, serving, hand-back, abort and release. The region is the bytes past the
 pool; the Guard writes its snapshot there, and the claimant replays whatever it finds.
 */
module GuardLife {
  import opened Prelude
  import opened RecoveryRecords
  import opened Frames
  import opened Mirroring
  import opened Handback
  import opened GuardRecovery

  /** What does not change over a Guard's life: the encoding, and the terms of the pool. */
  datatype Setting = Setting(codec: Codec, terms: seq<Byte>)

  datatype Guard = Guard(
    region: Region,
    mirror: Option<Table>,
    kept: Kept,
    serving: bool,
    lingering: bool,
    core: LiveTable,
    resumable: bool,
    primary: Option<Table>,
    activated: bool,
    journal: seq<Change>,
    journalValid: bool,
    failed: bool)

  /** What storage makes of a region: room for it, in whole pages; no room; or another error. */
  datatype Storage = Room(aligned: nat) | Full | Broken

  datatype Step =
    | Claim(order: seq<BlockKey>, storage: Storage)
    | Activate
    | PublishFrame(frame: Change, accepted: bool)
    | Poll
    | Die
    | Overtake
    | Confirm
    | Serve(core: LiveTable)
    | Abort(order: seq<BlockKey>, storage: Storage)
    | Release(order: seq<BlockKey>, storage: Storage)

  // -- The region, written and read.

  predicate AllFit(frames: seq<Frame>) { forall f :: f in frames ==> Fits(f) }

  datatype Written = Stored(region: Region) | NoRoom | Oversized | Faulty

  /** `_write_handback`: an oversized frame is noticed before the file is touched, and when there
      is no room the file is cut back to the pool. */
  function Write(g: Setting, region: Region, changes: seq<Change>, storage: Storage): Written {
    var frames := WireAll(g.codec, changes);
    if !AllFit(frames) then Oversized
    else if frames == [] then Stored(Absent)
    else
      match storage
      case Full => NoRoom
      case Broken => Faulty
      case Room(n) =>
        if |EncodeBody(frames)| > n then Faulty else Stored(Finished(region, g.terms, EncodeBody(frames), n))
  }

  /** `read_handback`: a region that was never finished counts as none; anything else that does
      not replay is an error. */
  function ReadBack(g: Setting, region: Region): Option<Table> {
    match ReadRegion(region, g.terms)
    case Ok(frames) => Mirrored(g.codec, map[], frames)
    case Err(e) => if e == Torn then Some(map[]) else None
  }

  lemma ReadBackNamed(g: Setting, region: Region)
    ensures ReadBack(g, region).Some? ==> AllNamed(ReadBack(g, region).value)
  {
    var read := ReadRegion(region, g.terms);
    if read.Ok? {
      MirroredNamed(g.codec, read.value);
    }
  }

  /** Whatever is stored is read back: the frames are the table's, their bytes are whole, and
      decoding them gives what replaying the changes gives. */
  lemma StoredReadsBack(g: Setting, region: Region, changes: seq<Change>, storage: Storage)
    requires Faithful(g.codec) && Write(g, region, changes, storage).Stored?
    ensures ReadBack(g, Write(g, region, changes, storage).region) == Some(Replay(map[], changes))
  {
    var frames := WireAll(g.codec, changes);
    MirroredIsReplay(g.codec, map[], changes);
    if frames != [] {
      FinishedReadsBack(region, g.terms, g.terms, frames, storage.aligned);
    }
  }

  // -- Steps.

  /** The order in which a table lists its keys. */
  ghost predicate Lists(order: seq<BlockKey>, records: LiveTable) { forall k :: k in order <==> k in records }

  /** What promotion recovers: the drained mirror, or nothing. */
  function Recovered(s: Guard): Table {
    if s.mirror.Some? && s.journalValid then Replay(s.mirror.value, s.journal) else map[]
  }

  /** What a release or a hand-back would write. */
  function Records(s: Guard): LiveTable { if s.serving then WithDisk(s.core, s.kept) else Lift(Recovered(s)) }

  ghost predicate Enabled(s: Guard, step: Step) {
    !s.failed &&
    match step
    case Claim(order, storage) => s.primary.None? && !s.lingering && Lists(order, Records(s))
    case Activate => s.primary.Some? && !s.activated
    case PublishFrame(frame, accepted) => s.primary.Some? && s.activated
    case Poll => s.primary.Some? && (s.journal != [] || !s.journalValid)
    case Die => s.primary.Some?
    case Overtake => s.primary.Some?
    case Confirm => s.lingering
    case Serve(core) => s.serving && forall k :: k in core ==> core[k].g3.None?
    case Abort(order, storage) => s.primary.Some? && !s.activated && Lists(order, Records(s))
    case Release(order, storage) => (s.primary.Some? || s.lingering) && Lists(order, Records(s))
  }

  function Changes(s: Guard, order: seq<BlockKey>): seq<Change>
    requires forall k :: k in order ==> k in Records(s)
  {
    SnapshotFrames(Records(s), order)
  }

  /** What a release or a hand-back comes to when it writes the table out. */
  function WrittenOut(g: Setting, s: Guard, order: seq<BlockKey>, storage: Storage): Written
    requires forall k :: k in order ==> k in Records(s)
  {
    Write(g, s.region, Changes(s, order), storage)
  }

  /** A serving Guard writes its table out and mirrors it. When there is no room, region and
      mirror go together; any other failure is the Guard's end. */
  function HandBack(s: Guard, w: Written): Guard {
    var t := s.(kept := map[], serving := false, core := map[]);
    match w
    case Stored(region) => t.(region := region, mirror := Some(Adopted(Records(s))))
    case NoRoom => t.(region := Absent, mirror := None)
    case Oversized => s.(failed := true)
    case Faulty => s.(failed := true)
  }

  /** Before anything moves: without a mirror the region is the baseline. `None` refuses the claim. */
  function Configured(g: Setting, s: Guard): Option<Guard> {
    if s.mirror.Some? then Some(s)
    else
      match ReadBack(g, s.region)
      case None => None
      case Some(table) =>
        var region := if ReadRegion(s.region, g.terms) == Err(Torn) then Absent else s.region;
        Some(s.(mirror := Some(table), region := region))
  }

  /** The journal is reset, the lease granted, and the claimant replays the region. */
  function Granted(g: Setting, s: Guard): Guard {
    var t := s.(mirror := if s.mirror.None? then Some(map[]) else s.mirror, journal := [], journalValid := true,
                activated := false);
    match ReadBack(g, s.region)
    case None => t.(failed := true)
    case Some(table) => t.(primary := Some(table))
  }

  function ApplyClaim(g: Setting, s: Guard, order: seq<BlockKey>, storage: Storage): Guard
    requires forall k :: k in order ==> k in Records(s)
  {
    match Configured(g, s)
    case None => s
    case Some(t) =>
      if !s.serving then Granted(g, t)
      else
        var handed := HandBack(s, WrittenOut(g, s, order, storage));
        if handed.failed then handed else Granted(g, handed.(resumable := true))
  }

  function ApplyPublish(s: Guard, frame: Change, accepted: bool): Guard
    requires s.primary.Some?
  {
    var t := s.(primary := Some(Play(s.primary.value, frame)));
    if s.journalValid && accepted then t.(journal := s.journal + [frame]) else t.(journalValid := false)
  }

  /** Frames are mirrored one by one; the flag is noticed once there are none left. */
  function ApplyPoll(s: Guard): Guard {
    if s.mirror.None? then s
    else if s.journal == [] then if s.journalValid then s else s.(mirror := None)
    else s.(mirror := Some(Play(s.mirror.value, s.journal[0])), journal := s.journal[1..])
  }

  /** The Guard serves what it recovered, without the disk half, and gives the region up. */
  function Promote(s: Guard): Guard {
    var records := Recovered(s);
    s.(mirror := Some(map[]), kept := DiskHalf(records), core := WithoutDisk(Lift(records)), serving := true,
       resumable := false,
       region := Absent, primary := None, journal := [])
  }

  /** Either way the mirror goes: kept, it would name slots a later claimant has used. */
  function ReleaseWith(s: Guard, w: Written): Guard {
    if s.serving then
      var handed := HandBack(s, w);
      if handed.failed then handed else handed.(mirror := None, resumable := false, lingering := false)
    else
      var t := s.(resumable := false, primary := None, mirror := None, journal := []);
      if s.mirror.None? || !s.journalValid then t
      else
        match w
        case Stored(region) => t.(region := region)
        case NoRoom => t.(region := Absent)
        case Oversized => t
        case Faulty => t.(failed := true)
  }

  function ApplyRelease(g: Setting, s: Guard, order: seq<BlockKey>, storage: Storage): Guard
    requires forall k :: k in order ==> k in Records(s)
  {
    ReleaseWith(s, WrittenOut(g, s, order, storage))
  }

  function ApplyAbort(g: Setting, s: Guard, order: seq<BlockKey>, storage: Storage): Guard
    requires forall k :: k in order ==> k in Records(s)
  {
    if s.resumable && s.mirror.Some? then Promote(s) else ApplyRelease(g, s, order, storage)
  }

  ghost function Apply(g: Setting, s: Guard, step: Step): Guard
    requires Enabled(s, step)
  {
    match step
    case Claim(order, storage) => ApplyClaim(g, s, order, storage)
    case Activate => s.(region := Absent, activated := true)
    case PublishFrame(frame, accepted) => ApplyPublish(s, frame, accepted)
    case Poll => ApplyPoll(s)
    case Die => Promote(s)
    // The heartbeat stopped: the Guard serves, but the lease lasts until the exit is confirmed.
    case Overtake => Promote(s).(lingering := true)
    case Confirm => s.(lingering := false)
    case Serve(core) => s.(core := core)
    case Abort(order, storage) => ApplyAbort(g, s, order, storage)
    case Release(order, storage) => ApplyRelease(g, s, order, storage)
  }

  // -- The invariant.

  ghost predicate PrimaryOk(g: Setting, s: Guard) {
    s.primary.Some? ==>
      && AllNamed(s.primary.value) && !s.serving && !s.lingering
      // A live primary's table is the mirror plus what is still in the journal.
      && (s.mirror.Some? && s.journalValid ==> Replay(s.mirror.value, s.journal) == s.primary.value)
      // Until it has started, the region still holds what it was given.
      && (!s.activated ==>
            ReadBack(g, s.region) == s.primary && s.journal == [] && s.journalValid && s.mirror == s.primary)
      && (s.activated ==> s.region == Absent)
  }

  ghost predicate Inv(g: Setting, s: Guard) {
    !s.failed ==>
      && ReadBack(g, s.region).Some?
      && (s.mirror.Some? ==> AllNamed(s.mirror.value))
      && PrimaryOk(g, s)
      // Without a primary, either the Guard serves or the region is all there is.
      && (s.primary.None? && !s.serving ==> s.mirror.None? && !s.lingering)
      && (s.serving ==> s.mirror == Some(map[]) && s.region == Absent && forall k :: k in s.core ==> s.core[k].g3.None?)
  }

  /** The two carriers of a hand-back: what is stored reads back as what is mirrored. */
  lemma HandBackAgrees(g: Setting, s: Guard, order: seq<BlockKey>, storage: Storage)
    requires Faithful(g.codec) && Lists(order, Records(s)) && WrittenOut(g, s, order, storage).Stored?
    ensures ReadBack(g, WrittenOut(g, s, order, storage).region) == Some(Adopted(Records(s)))
  {
    StoredReadsBack(g, s.region, Changes(s, order), storage);
    CarriersAgree(Records(s), order);
  }

  lemma AbsentIsEmpty(g: Setting)
    ensures ReadBack(g, Absent) == Some(map[])
  {
  }

  lemma AdoptedNamed(records: LiveTable)
    ensures AllNamed(Adopted(records))
  {
  }

  lemma GrantedKeeps(g: Setting, s: Guard)
    requires !s.failed && !s.serving && !s.lingering && ReadBack(g, s.region).Some?
    requires s.mirror.Some? ==> s.mirror == ReadBack(g, s.region)
    requires s.mirror.None? ==> s.region == Absent
    ensures var t := Granted(g, s);
      Inv(g, t) && !t.failed && t.primary == t.mirror == ReadBack(g, s.region) && t.region == s.region
  {
    ReadBackNamed(g, s.region);
    AbsentIsEmpty(g);
  }

  /** A serving Guard's claim: it hands back, and the claimant reads from the bytes what the
      Guard mirrors, or finds nothing where the Guard has dropped its mirror too. */
  lemma ServingClaimKeeps(g: Setting, s: Guard, order: seq<BlockKey>, storage: Storage)
    requires Faithful(g.codec) && Inv(g, s) && Enabled(s, Claim(order, storage)) && s.serving
    ensures var t := ApplyClaim(g, s, order, storage);
      && Inv(g, t)
      && (t.failed <==> WrittenOut(g, s, order, storage) in {Oversized, Faulty})
      && (!t.failed ==> t.primary.Some? && t.primary == t.mirror == ReadBack(g, t.region))
      && (WrittenOut(g, s, order, storage).Stored? ==> t.primary == Some(Adopted(Records(s))))
      && (WrittenOut(g, s, order, storage).NoRoom? ==> t.primary == Some(map[]))
  {
    var handed := HandBack(s, WrittenOut(g, s, order, storage));
    AdoptedNamed(Records(s));
    AbsentIsEmpty(g);
    match WrittenOut(g, s, order, storage)
    case Stored(region) =>
      HandBackAgrees(g, s, order, storage);
      GrantedKeeps(g, handed.(resumable := true));
    case NoRoom => GrantedKeeps(g, handed.(resumable := true));
    case _ =>
  }

  /** Otherwise the Guard and the claimant read the same region. */
  lemma IdleClaimKeeps(g: Setting, s: Guard, order: seq<BlockKey>, storage: Storage)
    requires Inv(g, s) && Enabled(s, Claim(order, storage)) && !s.serving
    ensures var t := ApplyClaim(g, s, order, storage);
      Inv(g, t) && !t.failed && t.primary == t.mirror == ReadBack(g, s.region)
  {
    AbsentIsEmpty(g);
    GrantedKeeps(g, Configured(g, s).value);
  }

  lemma IdleInv(g: Setting, s: Guard)
    requires s.primary.None? && !s.serving && s.mirror.None? && !s.lingering && ReadBack(g, s.region).Some?
    ensures Inv(g, s)
  {
  }

  /** What a release leaves: an idle Guard, and the region as it was, cut back, or written. */
  lemma ReleaseLeaves(g: Setting, s: Guard, w: Written)
    requires Inv(g, s) && !s.failed && (s.primary.Some? || s.serving)
    ensures var t := ReleaseWith(s, w);
      !t.failed ==>
        && t.primary.None? && !t.serving && t.mirror.None? && !t.lingering
        && (t.region == s.region || t.region == Absent || w == Stored(t.region))
  {
  }

  lemma ReleaseKeeps(g: Setting, s: Guard, order: seq<BlockKey>, storage: Storage)
    requires Faithful(g.codec) && Inv(g, s) && !s.failed && (s.primary.Some? || s.serving) && Lists(order, Records(s))
    ensures Inv(g, ApplyRelease(g, s, order, storage))
  {
    var t := ApplyRelease(g, s, order, storage);
    if !t.failed {
      ReleaseLeaves(g, s, WrittenOut(g, s, order, storage));
      AbsentIsEmpty(g);
      if WrittenOut(g, s, order, storage) == Stored(t.region) {
        HandBackAgrees(g, s, order, storage);
      }
      IdleInv(g, t);
    }
  }

  lemma PromoteKeeps(g: Setting, s: Guard)
    requires Inv(g, s) && !s.failed && s.primary.Some?
    ensures Inv(g, Promote(s)) && Inv(g, Promote(s).(lingering := true))
  {
    AbsentIsEmpty(g);
  }

  lemma JournalKeeps(g: Setting, s: Guard, step: Step)
    requires Inv(g, s) && Enabled(s, step) && (step.PublishFrame? || step.Poll?)
    ensures Inv(g, Apply(g, s, step))
  {
    match step
    case PublishFrame(frame, accepted) =>
      if s.mirror.Some? {
        ReplayAppend(s.mirror.value, s.journal, frame);
      }
    case Poll =>
      if s.mirror.Some? && s.journal != [] {
        ReplayFirst(s.mirror.value, s.journal);
      }
  }

  lemma StepKeeps(g: Setting, s: Guard, step: Step)
    requires Faithful(g.codec) && Inv(g, s) && Enabled(s, step)
    ensures Inv(g, Apply(g, s, step))
  {
    match step
    case Claim(order, storage) =>
      if s.serving { ServingClaimKeeps(g, s, order, storage); } else { IdleClaimKeeps(g, s, order, storage); }
    case Activate => AbsentIsEmpty(g);
    case PublishFrame(frame, accepted) => JournalKeeps(g, s, step);
    case Poll => JournalKeeps(g, s, step);
    case Die => PromoteKeeps(g, s);
    case Overtake => PromoteKeeps(g, s);
    case Confirm =>
    case Serve(core) =>
    case Abort(order, storage) => PromoteKeeps(g, s); ReleaseKeeps(g, s, order, storage);
    case Release(order, storage) => ReleaseKeeps(g, s, order, storage);
  }

  ghost predicate CanRun(g: Setting, s: Guard, steps: seq<Step>)
    decreases |steps|
  {
    steps == [] || (Enabled(s, steps[0]) && CanRun(g, Apply(g, s, steps[0]), steps[1..]))
  }

  ghost function After(g: Setting, s: Guard, steps: seq<Step>): Guard
    requires CanRun(g, s, steps)
    decreases |steps|
  {
    if steps == [] then s else After(g, Apply(g, s, steps[0]), steps[1..])
  }

  lemma {:induction false} RunKeeps(g: Setting, s: Guard, steps: seq<Step>)
    requires Faithful(g.codec) && Inv(g, s) && CanRun(g, s, steps)
    ensures Inv(g, After(g, s, steps))
    decreases |steps|
  {
    if steps != [] {
      StepKeeps(g, s, steps[0]);
      RunKeeps(g, Apply(g, s, steps[0]), steps[1..]);
    }
  }

  /** A Guard over a pool whose file already holds some region. */
  function Fresh(region: Region): Guard {
    Guard(region, None, map[], false, false, map[], false, None, false, [], true, false)
  }

  /** Over a region that is finished but does not read back, every claim is refused, and nothing else
      can happen: the Guard and its region stay as they are. */
  lemma {:induction false} UnreadableIsRefused(g: Setting, region: Region, steps: seq<Step>)
    requires ReadBack(g, region).None? && CanRun(g, Fresh(region), steps)
    ensures After(g, Fresh(region), steps) == Fresh(region)
    decreases |steps|
  {
    if steps != [] {
      assert Apply(g, Fresh(region), steps[0]) == Fresh(region);
      UnreadableIsRefused(g, region, steps[1..]);
    }
  }

  /** In every run, over whatever region the file held: when a claim is granted, the table that the
      claimant decodes from the bytes is the one the Guard mirrors for it. It is what a
      serving Guard stood for, if that could be stored, and otherwise what the region held. A claim
      is refused exactly over a region that does not read back, and then changes nothing. Until
      a claim is granted, what a promotion recovers from an unflagged journal is the dead
      primary's table. */
  lemma ClaimantSeesTheMirror(g: Setting, region: Region, steps: seq<Step>, order: seq<BlockKey>, storage: Storage)
    requires Faithful(g.codec) && CanRun(g, Fresh(region), steps)
    ensures var s := After(g, Fresh(region), steps);
      && (Enabled(s, Claim(order, storage)) ==>
          var t := Apply(g, s, Claim(order, storage));
          && (ReadBack(g, region).None? ==> t == s && t.primary.None?)
          && (ReadBack(g, region).Some? && !t.failed ==>
              t.primary.Some? && t.primary == t.mirror == ReadBack(g, t.region))
          && (ReadBack(g, region).Some? && !s.serving ==> !t.failed && t.primary == ReadBack(g, s.region))
          && (s.serving ==> (t.failed <==> WrittenOut(g, s, order, storage) in {Oversized, Faulty}))
          && (s.serving && WrittenOut(g, s, order, storage).Stored? ==> t.primary == Some(Adopted(Records(s)))))
      && (!s.failed && s.primary.Some? && s.mirror.Some? && s.journalValid ==> Recovered(s) == s.primary.value)
  {
    if ReadBack(g, region).None? {
      UnreadableIsRefused(g, region, steps);
    } else {
      ReadableClaimant(g, region, steps, order, storage);
    }
  }

  lemma ReadableClaimant(g: Setting, region: Region, steps: seq<Step>, order: seq<BlockKey>, storage: Storage)
    requires Faithful(g.codec) && ReadBack(g, region).Some? && CanRun(g, Fresh(region), steps)
    ensures var s := After(g, Fresh(region), steps);
      && (Enabled(s, Claim(order, storage)) ==>
          var t := Apply(g, s, Claim(order, storage));
          && (!t.failed ==> t.primary.Some? && t.primary == t.mirror == ReadBack(g, t.region))
          && (!s.serving ==> !t.failed && t.primary == ReadBack(g, s.region))
          && (s.serving ==> (t.failed <==> WrittenOut(g, s, order, storage) in {Oversized, Faulty}))
          && (s.serving && WrittenOut(g, s, order, storage).Stored? ==> t.primary == Some(Adopted(Records(s)))))
      && (!s.failed && s.primary.Some? && s.mirror.Some? && s.journalValid ==> Recovered(s) == s.primary.value)
  {
    RunKeeps(g, Fresh(region), steps);
    var s := After(g, Fresh(region), steps);
    if Enabled(s, Claim(order, storage)) {
      if s.serving {
        ServingClaimKeeps(g, s, order, storage);
        if WrittenOut(g, s, order, storage).Stored? {
          HandBackAgrees(g, s, order, storage);
        }
        AbsentIsEmpty(g);
      } else {
        IdleClaimKeeps(g, s, order, storage);
      }
    }
  }

  /** The table a good primary leaves behind is written from the mirror as it was published. */
  lemma ReleaseReadsBack(g: Setting, s: Guard, order: seq<BlockKey>, storage: Storage)
    requires Faithful(g.codec) && Inv(g, s) && !s.failed && s.primary.Some? && s.mirror.Some? && s.journalValid
    requires Lists(order, Records(s))
    ensures var w := WrittenOut(g, s, order, storage);
      w.Stored? ==> ReadBack(g, w.region) == s.primary
  {
    if WrittenOut(g, s, order, storage).Stored? {
      HandBackAgrees(g, s, order, storage);
      AdoptedLift(s.primary.value);
    }
  }

  /** A primary that leaves in good order hands its exact table to the next claimant. If there is
      no room for it, nothing is left. If a record is too large for a frame, a primary that had
      started leaves nothing, and one that had not leaves what it was given. */
  lemma ReleaseThenClaim(g: Setting, s: Guard, order: seq<BlockKey>, storage: Storage, again: Storage)
    requires Faithful(g.codec) && Inv(g, s) && !s.failed && s.primary.Some? && s.mirror.Some? && s.journalValid
    requires Lists(order, Records(s))
    ensures var t, w := ApplyRelease(g, s, order, storage), WrittenOut(g, s, order, storage);
      && (t.failed <==> w.Faulty?)
      && (!t.failed ==>
          var next := ApplyClaim(g, t, [], again);
          && next.primary == next.mirror
          && (w.Stored? ==> next.primary == s.primary)
          && (w.NoRoom? ==> next.primary == Some(map[]))
          && (w.Oversized? ==> next.primary == if s.activated then Some(map[]) else s.primary))
  {
    var t := ApplyRelease(g, s, order, storage);
    ReleaseKeeps(g, s, order, storage);
    ReleaseReadsBack(g, s, order, storage);
    AbsentIsEmpty(g);
    if !t.failed {
      IdleClaimKeeps(g, t, [], again);
    }
  }

  ghost predicate OnlyServes(steps: seq<Step>) { forall i :: 0 <= i < |steps| ==> steps[i].Serve? || steps[i].Confirm? }

  lemma {:induction false} ServingKeeps(g: Setting, s: Guard, steps: seq<Step>)
    requires Faithful(g.codec) && Inv(g, s) && !s.failed && s.serving && CanRun(g, s, steps) && OnlyServes(steps)
    ensures var t := After(g, s, steps); t.serving && t.kept == s.kept && Inv(g, t) && !t.failed && t.region == Absent
    decreases |steps|
  {
    if steps != [] {
      StepKeeps(g, s, steps[0]);
      ServingKeeps(g, Apply(g, s, steps[0]), steps[1..]);
    }
  }

  /** A primary dies, or is overtaken for its silence; the Guard serves for as long as it likes
      and changes its DRAM half at will; and if its table can be stored, the next claimant
      decodes from the region every disk residency the lost primary had, and no other. */
  lemma DiskOutlivesThePrimary(g: Setting, s: Guard, lost: Step, served: seq<Step>, order: seq<BlockKey>,
                               storage: Storage)
    requires Faithful(g.codec) && Inv(g, s) && !s.failed && s.primary.Some? && s.mirror.Some? && s.journalValid
    requires lost in {Die, Overtake}
    requires CanRun(g, Apply(g, s, lost), served) && OnlyServes(served)
    requires Enabled(After(g, Apply(g, s, lost), served), Claim(order, storage))
    requires var t := After(g, Apply(g, s, lost), served); WrittenOut(g, t, order, storage).Stored?
    ensures var next := ApplyClaim(g, After(g, Apply(g, s, lost), served), order, storage).primary;
      && next.Some?
      && (forall k :: k in s.primary.value && s.primary.value[k].g3.Some? ==>
            k in next.value && next.value[k].g3 == s.primary.value[k].g3)
      && (forall k :: k in next.value && next.value[k].g3.Some? ==>
            k in s.primary.value && s.primary.value[k].g3 == next.value[k].g3)
  {
    StepKeeps(g, s, lost);
    ServingKeeps(g, Apply(g, s, lost), served);
    var t := After(g, Apply(g, s, lost), served);
    ServingClaimKeeps(g, t, order, storage);
    DiskSurvivesServing(s.primary.value, t.core);
  }

  /** A claim aborted before it served gives the table back: to the Guard if it was serving
      before, otherwise to the region. Either way the next claimant finds it unchanged, as long
      as storage has room for it. */
  lemma AbortThenClaim(g: Setting, s: Guard, order: seq<BlockKey>, storage: Storage, again: seq<BlockKey>,
                       room: Storage)
    requires Faithful(g.codec) && Inv(g, s) && !s.failed && s.primary.Some? && !s.activated && Lists(order, Records(s))
    requires !WrittenOut(g, s, order, storage).NoRoom? && Enabled(ApplyAbort(g, s, order, storage), Claim(again, room))
    requires var t := ApplyAbort(g, s, order, storage); t.serving ==> WrittenOut(g, t, again, room).Stored?
    ensures ApplyClaim(g, ApplyAbort(g, s, order, storage), again, room).primary == s.primary
  {
    var t := ApplyAbort(g, s, order, storage);
    PromoteKeeps(g, s);
    ReleaseKeeps(g, s, order, storage);
    if t.serving {
      ServingClaimKeeps(g, t, again, room);
      IdleServingIsInvisible(s.primary.value);
    } else {
      ReleaseReadsBack(g, s, order, storage);
      IdleClaimKeeps(g, t, again, room);
    }
  }

  // -- What a Guard serves.

  lemma PromotedServes(g: Setting, s: Guard)
    requires Inv(g, s) && !s.failed && s.primary.Some?
    ensures Adopted(Records(Promote(s))) == if s.mirror.Some? && s.journalValid then s.primary.value else map[]
  {
    if s.mirror.Some? && s.journalValid {
      IdleServingIsInvisible(s.primary.value);
    } else {
      IdleServingIsInvisible(map[]);
    }
  }

  /** In every run: when a primary dies or falls silent, what the Guard serves, with the disk half it set
      aside, stands for exactly the primary's table if the journal is mirrored and unflagged, and
      for nothing otherwise. */
  lemma PromotionServes(g: Setting, region: Region, steps: seq<Step>, lost: Step)
    requires Faithful(g.codec) && CanRun(g, Fresh(region), steps) && lost in {Die, Overtake}
    requires Enabled(After(g, Fresh(region), steps), lost)
    ensures var s := After(g, Fresh(region), steps);
      var t := Apply(g, s, lost);
      t.serving && Adopted(Records(t)) == if s.mirror.Some? && s.journalValid then s.primary.value else map[]
  {
    if ReadBack(g, region).None? {
      UnreadableIsRefused(g, region, steps);
    } else {
      RunKeeps(g, Fresh(region), steps);
      PromotedServes(g, After(g, Fresh(region), steps));
    }
  }

  /** A Guard may resume only while the claimant it stood down for has not started. */
  ghost predicate ResumeOk(s: Guard) { s.resumable && !s.failed ==> s.primary.Some? }

  lemma ResumeStep(g: Setting, s: Guard, step: Step)
    requires Enabled(s, step) && ResumeOk(s)
    ensures ResumeOk(Apply(g, s, step))
  {
    match step
    case Claim(order, storage) => ResumeClaim(g, s, order, storage);
    case Abort(order, storage) => ResumeRelease(s, WrittenOut(g, s, order, storage));
    case Release(order, storage) => ResumeRelease(s, WrittenOut(g, s, order, storage));
    case _ =>
  }

  lemma ResumeClaim(g: Setting, s: Guard, order: seq<BlockKey>, storage: Storage)
    requires Enabled(s, Claim(order, storage)) && ResumeOk(s)
    ensures ResumeOk(ApplyClaim(g, s, order, storage))
  {
  }

  lemma ResumeRelease(s: Guard, w: Written)
    requires ResumeOk(s) && !s.failed
    ensures ResumeOk(ReleaseWith(s, w))
  {
  }

  lemma {:induction false} ResumeRun(g: Setting, s: Guard, steps: seq<Step>)
    requires CanRun(g, s, steps) && ResumeOk(s)
    ensures ResumeOk(After(g, s, steps))
    decreases |steps|
  {
    if steps != [] {
      ResumeStep(g, s, steps[0]);
      ResumeRun(g, Apply(g, s, steps[0]), steps[1..]);
    }
  }

  /** In every run: aborting a claim that was just granted returns the Guard to serving exactly if it was
      serving before, and it then serves what the claimant was given. */
  lemma AbortUndoesTheClaim(g: Setting, region: Region, steps: seq<Step>, order: seq<BlockKey>, storage: Storage,
                            again: seq<BlockKey>, room: Storage)
    requires Faithful(g.codec) && CanRun(g, Fresh(region), steps)
    requires Enabled(After(g, Fresh(region), steps), Claim(order, storage))
    requires var t := Apply(g, After(g, Fresh(region), steps), Claim(order, storage)); Enabled(t, Abort(again, room))
    ensures var s := After(g, Fresh(region), steps);
      var t := Apply(g, s, Claim(order, storage));
      var u := Apply(g, t, Abort(again, room));
      (u.serving <==> s.serving) && (u.serving ==> Adopted(Records(u)) == t.primary.value)
  {
    if ReadBack(g, region).None? {
      UnreadableIsRefused(g, region, steps);
    } else {
      RunKeeps(g, Fresh(region), steps);
      ResumeRun(g, Fresh(region), steps);
      ClaimAborted(g, After(g, Fresh(region), steps), order, storage, again, room);
    }
  }

  lemma ClaimAborted(g: Setting, s: Guard, order: seq<BlockKey>, storage: Storage, again: seq<BlockKey>, room: Storage)
    requires Faithful(g.codec) && Inv(g, s) && ResumeOk(s) && Enabled(s, Claim(order, storage))
    requires Enabled(ApplyClaim(g, s, order, storage), Abort(again, room))
    ensures var t := ApplyClaim(g, s, order, storage);
      var u := ApplyAbort(g, t, again, room);
      (u.serving <==> s.serving) && (u.serving ==> Adopted(Records(u)) == t.primary.value)
  {
    ClaimResumable(g, s, order, storage);
    if s.serving {
      ServingClaimKeeps(g, s, order, storage);
    } else {
      IdleClaimKeeps(g, s, order, storage);
    }
    AbortServes(g, ApplyClaim(g, s, order, storage), again, room);
  }

  lemma ClaimResumable(g: Setting, s: Guard, order: seq<BlockKey>, storage: Storage)
    requires ResumeOk(s) && Enabled(s, Claim(order, storage)) && !ApplyClaim(g, s, order, storage).failed
    ensures ApplyClaim(g, s, order, storage).primary.Some? ==> ApplyClaim(g, s, order, storage).resumable == s.serving
  {
  }

  lemma AbortServes(g: Setting, s: Guard, order: seq<BlockKey>, storage: Storage)
    requires Inv(g, s) && Enabled(s, Abort(order, storage))
    ensures var u := ApplyAbort(g, s, order, storage);
      (u.serving <==> s.resumable) && (u.serving ==> Adopted(Records(u)) == s.primary.value)
  {
    if s.resumable {
      PromotedServes(g, s);
      assert ApplyAbort(g, s, order, storage) == Promote(s);
    } else {
      ReleasedIsIdle(s, WrittenOut(g, s, order, storage));
    }
  }

  lemma ReleasedIsIdle(s: Guard, w: Written)
    requires !s.serving
    ensures !ReleaseWith(s, w).serving
  {
  }

  // -- Silence and refused frames.

  predicate IsReleased(step: Step) { step.Confirm? || step.Release? }

  /** In every run: from the moment a silent holder is overtaken until its exit is confirmed, or it releases,
      nobody else is let in. */
  lemma {:induction false} LingeringKeepsOut(g: Setting, s: Guard, steps: seq<Step>)
    requires s.lingering && s.primary.None? && CanRun(g, s, steps)
    requires forall i :: 0 <= i < |steps| ==> !IsReleased(steps[i])
    ensures After(g, s, steps).lingering && forall i :: 0 <= i < |steps| ==> !steps[i].Claim?
    decreases |steps|
  {
    if steps != [] {
      LingeringKeepsOut(g, Apply(g, s, steps[0]), steps[1..]);
      forall i | 0 <= i < |steps| ensures !steps[i].Claim? { assert i > 0 ==> steps[i] == steps[1..][i - 1]; }
    }
  }

  lemma OvertakenKeepsOut(g: Setting, s: Guard, steps: seq<Step>)
    requires Enabled(s, Overtake) && CanRun(g, Apply(g, s, Overtake), steps)
    requires forall i :: 0 <= i < |steps| ==> !IsReleased(steps[i])
    ensures forall i :: 0 <= i < |steps| ==> !steps[i].Claim?
  {
    LingeringKeepsOut(g, Apply(g, s, Overtake), steps);
  }

  lemma {:induction false} FlagStays(g: Setting, s: Guard, steps: seq<Step>)
    requires CanRun(g, s, steps) && !s.journalValid && forall i :: 0 <= i < |steps| ==> !steps[i].Claim?
    ensures !After(g, s, steps).journalValid
    decreases |steps|
  {
    if steps != [] {
      FlagStep(g, s, steps[0]);
      FlagStays(g, Apply(g, s, steps[0]), steps[1..]);
    }
  }

  lemma FlagStep(g: Setting, s: Guard, step: Step)
    requires Enabled(s, step) && !s.journalValid && !step.Claim?
    ensures !Apply(g, s, step).journalValid
  {
    if step.Abort? || step.Release? {
      FlagReleased(s, WrittenOut(g, s, step.order, step.storage));
    }
  }

  lemma FlagReleased(s: Guard, w: Written)
    requires !s.journalValid
    ensures !ReleaseWith(s, w).journalValid
  {
  }

  /** In every run: once the ring has refused a frame, nothing of this primary's table is served after its
      death, however much it published before and after. */
  lemma RefusedFrameLosesTheTable(g: Setting, region: Region, before: seq<Step>, frame: Change, during: seq<Step>,
                                  lost: Step)
    requires Faithful(g.codec) && CanRun(g, Fresh(region), before) && lost in {Die, Overtake}
    requires Enabled(After(g, Fresh(region), before), PublishFrame(frame, false))
    requires CanRun(g, Apply(g, After(g, Fresh(region), before), PublishFrame(frame, false)), during)
    requires forall i :: 0 <= i < |during| ==> !during[i].Claim?
    requires Enabled(After(g, Apply(g, After(g, Fresh(region), before), PublishFrame(frame, false)), during), lost)
    ensures var s := After(g, Apply(g, After(g, Fresh(region), before), PublishFrame(frame, false)), during);
      Adopted(Records(Apply(g, s, lost))) == map[]
  {
    if ReadBack(g, region).None? {
      UnreadableIsRefused(g, region, before);
    } else {
      RunKeeps(g, Fresh(region), before);
      var s := After(g, Fresh(region), before);
      var t := Apply(g, s, PublishFrame(frame, false));
      StepKeeps(g, s, PublishFrame(frame, false));
      RunKeeps(g, t, during);
      FlagStays(g, t, during);
      PromotedServes(g, After(g, t, during));
    }
  }
}
