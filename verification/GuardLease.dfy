/**
 The Guard's lease machine. Requesting threads reserve a transition and queue a command; one
 actor runs commands and watches the holder. A step is one section under the phase lock, or one
 stretch of actor work outside it. Granting is split in two so that a shutdown flag may be set
 between the check and the grant.
 */
module GuardLease {
  import opened Prelude

  type Lease = nat

  datatype Phase = Unconfigured | Idle | Standby | Held | Failed | Closed
  datatype Transition = Claiming | Releasing | Promoting
  datatype Command = ClaimPool(lease: Lease) | EndLease(lease: Lease, abort: bool) | CloseGuard

  /** Where the actor is. Only `Granting` keeps the phase lock across steps. */
  datatype Actor =
    | Waiting
    | Adopting(lease: Lease)
    | Checking(lease: Lease)
    | Granting(lease: Lease)
    | Refusing
    | Ending(lease: Lease, abort: bool)
    | Looking(lease: Lease)
    | TakingOver(lease: Lease, dead: bool)
    | Clearing(lease: Lease, next: Phase)
    | Settling(next: Phase)
    | Finishing
    | Shutting
    | Stopped

  datatype Guard = Guard(
    phase: Phase,
    reserved: Option<Transition>,
    current: Option<Lease>,
    serving: bool,
    closing: bool,
    failed: bool,
    beat: bool,
    mailbox: seq<Command>,
    actor: Actor,
    leases: set<Lease>,
    refusing: bool,
    barrier: bool)

  datatype Step =
    | RequestClaim(lease: Lease)
    | RequestEnd(lease: Lease, abort: bool)
    | Heartbeat(lease: Lease)
    | RequestClose
    | SetRefusing
    | PassBarrier
    | TakeCommand
    | Adopt(ok: bool, fatal: bool)
    | Check
    | Grant
    | Refuse(ok: bool)
    | End(resume: bool, ok: bool)
    | Look
    | Judge(alive: bool, late: bool)
    | Promote(fenced: bool, ok: bool)
    | Clear
    | Settle
    | Finish
    | ShutDown(ok: bool)
    | PollFails

  predicate LockFree(s: Guard) { !s.actor.Granting? }

  /** `_reserve_claim` accepts. */
  predicate Claimable(s: Guard) {
    !s.closing && !s.failed && s.reserved.None? && s.phase in {Unconfigured, Idle, Standby}
  }

  predicate Enabled(s: Guard, step: Step) {
    match step
    case RequestClaim(lease) => LockFree(s) && lease !in s.leases
    case RequestEnd(lease, abort) => LockFree(s)
    case Heartbeat(lease) => LockFree(s)
    case RequestClose => LockFree(s)
    case SetRefusing => true
    case PassBarrier => LockFree(s) && s.refusing
    case TakeCommand => s.actor.Waiting? && s.mailbox != []
    case Adopt(ok, fatal) => s.actor.Adopting? && (ok ==> !s.failed)
    case Check => s.actor.Checking?
    case Grant => s.actor.Granting?
    case Refuse(ok) => s.actor.Refusing? && (ok ==> !s.failed)
    case End(resume, ok) => s.actor.Ending? && (ok ==> !s.failed)
    case Look => s.actor.Waiting? && s.phase == Held && s.reserved.None? && !s.closing && s.current.Some?
    case Judge(alive, late) => s.actor.Looking?
    case Promote(fenced, ok) => s.actor.TakingOver? && (ok && !s.serving ==> !s.failed)
    case Clear => s.actor.Clearing?
    case Settle => s.actor.Settling?
    case Finish => s.actor.Finishing?
    case ShutDown(ok) => s.actor.Shutting?
    case PollFails => s.actor.Waiting?
  }

  function ApplyRequestClaim(s: Guard, lease: Lease): (t: Guard)
    ensures t.current == s.current
  {
    if Claimable(s) then s.(reserved := Some(Claiming), mailbox := s.mailbox + [ClaimPool(lease)],
                            leases := s.leases + {lease})
    else s
  }

  /** `_end_lease`: a stale lease changes nothing; a busy Guard refuses; during a promotion the
      command is queued without a reservation. */
  function ApplyRequestEnd(s: Guard, lease: Lease, abort: bool): (t: Guard)
    ensures t.current == s.current
  {
    if s.closing || s.current != Some(lease) then s
    else if s.reserved.Some? && s.reserved != Some(Promoting) then s
    else s.(reserved := if s.reserved.None? then Some(Releasing) else s.reserved,
            mailbox := s.mailbox + [EndLease(lease, abort)])
  }

  function ApplyHeartbeat(s: Guard, lease: Lease): (t: Guard)
    ensures t.current == s.current
  {
    if s.current != Some(lease) || s.serving || s.reserved == Some(Promoting) then s else s.(beat := true)
  }

  /** Dispatch: an end command is validated again against the current lease. */
  function ApplyTake(s: Guard): (t: Guard)
    requires s.mailbox != []
    ensures t.current == s.current
  {
    var rest := s.(mailbox := s.mailbox[1..]);
    match s.mailbox[0]
    case ClaimPool(lease) => rest.(actor := Adopting(lease))
    case EndLease(lease, abort) =>
      if s.current == Some(lease) then rest.(reserved := Some(Releasing), actor := Ending(lease, abort)) else rest
    case CloseGuard => rest.(actor := Shutting)
  }

  function Fail(s: Guard): Guard { s.(failed := true, phase := Failed) }

  /** Taking up a claimant; a serving Guard hands back first. */
  function ApplyAdopt(s: Guard, ok: bool, fatal: bool): (t: Guard)
    requires s.actor.Adopting?
    ensures t.current == s.current
  {
    if ok then s.(serving := false, actor := Checking(s.actor.lease))
    else (if fatal then Fail(s) else s).(actor := Finishing)
  }

  function ApplyCheck(s: Guard): (t: Guard)
    requires s.actor.Checking?
    ensures t.current == s.current
  {
    s.(actor := if s.closing || s.refusing then Refusing else Granting(s.actor.lease))
  }

  function ApplyGrant(s: Guard): Guard
    requires s.actor.Granting?
  {
    s.(current := Some(s.actor.lease), beat := false, phase := Held, actor := Finishing)
  }

  /** An abort may resume serving; otherwise the pool is released. */
  function ApplyEnd(s: Guard, resume: bool, ok: bool): (t: Guard)
    requires s.actor.Ending?
    ensures t.current == s.current
  {
    if !ok then Fail(s).(actor := Clearing(s.actor.lease, Failed))
    else if s.actor.abort && resume && !s.serving then s.(serving := true, actor := Clearing(s.actor.lease, Standby))
    else s.(serving := false, actor := Clearing(s.actor.lease, Idle))
  }

  /** Decide on what the poll said, if nothing changed meanwhile. */
  function ApplyJudge(s: Guard, alive: bool, late: bool): (t: Guard)
    requires s.actor.Looking?
    ensures t.current == s.current
  {
    if s.current != Some(s.actor.lease) || s.reserved.Some? || s.closing then s.(actor := Waiting)
    else if alive && !(s.beat && late) then s.(actor := Waiting)
    else s.(reserved := Some(Promoting), actor := TakingOver(s.actor.lease, !alive))
  }

  /** A dead holder loses the lease. One that only stopped beating keeps it until its death is
      certain, and is not taken over at all if it cannot be fenced. */
  function ApplyPromote(s: Guard, fenced: bool, ok: bool): (t: Guard)
    requires s.actor.TakingOver?
    ensures t.current == s.current
  {
    if s.actor.dead then
      if ok then s.(serving := true, actor := Clearing(s.actor.lease, Standby))
      else Fail(s).(actor := Clearing(s.actor.lease, Failed))
    else if !fenced then s.(actor := Finishing)
    else if ok then s.(serving := true, beat := false, actor := Finishing)
    else Fail(s).(actor := Finishing)
  }

  function ApplyShutDown(s: Guard, ok: bool): Guard {
    if ok then s.(current := None, phase := Closed, reserved := None, actor := Stopped)
    else Fail(s).(reserved := None, actor := Stopped)
  }

  function Apply(s: Guard, step: Step): Guard
    requires Enabled(s, step)
  {
    match step
    case RequestClaim(lease) => ApplyRequestClaim(s, lease)
    case RequestEnd(lease, abort) => ApplyRequestEnd(s, lease, abort)
    case Heartbeat(lease) => ApplyHeartbeat(s, lease)
    case RequestClose => s.(closing := true, mailbox := if s.closing then s.mailbox else s.mailbox + [CloseGuard])
    case SetRefusing => s.(refusing := true)
    case PassBarrier => s.(barrier := true)
    case TakeCommand => ApplyTake(s)
    case Adopt(ok, fatal) => ApplyAdopt(s, ok, fatal)
    case Check => ApplyCheck(s)
    case Grant => ApplyGrant(s)
    case Refuse(ok) => if ok then s.(phase := Idle, actor := Finishing) else s.(actor := Finishing)
    case End(resume, ok) => ApplyEnd(s, resume, ok)
    case Look => s.(actor := Looking(s.current.value))
    case Judge(alive, late) => ApplyJudge(s, alive, late)
    case Promote(fenced, ok) => ApplyPromote(s, fenced, ok)
    case Clear => s.(current := if s.current == Some(s.actor.lease) then None else s.current,
                     actor := Settling(s.actor.next))
    case Settle => s.(phase := s.actor.next, actor := Finishing)
    case Finish => s.(reserved := None, actor := Waiting)
    case ShutDown(ok) => ApplyShutDown(s, ok)
    case PollFails => Fail(s)
  }

  // -- The invariant.

  predicate ClaimUnderWay(s: Guard) { s.actor.Adopting? || s.actor.Checking? || s.actor.Granting? || s.actor.Refusing? }

  ghost predicate Inv(s: Guard) { Flags(s) && Mail(s) }

  /** A queued claim is the only one, and its reservation is still in place. */
  ghost predicate MailOk(s: Guard, i: nat) {
    i < |s.mailbox| ==>
      && (s.mailbox[i].CloseGuard? ==> s.closing)
      && (s.mailbox[i].ClaimPool? ==>
          s.mailbox[i].lease in s.leases
            && (s.actor.Stopped? || (s.reserved == Some(Claiming) && !ClaimUnderWay(s) && !s.actor.Finishing?)))
  }

  ghost predicate PairOk(s: Guard, i: nat, j: nat) {
    i < j < |s.mailbox| ==> !(s.mailbox[i].ClaimPool? && s.mailbox[j].ClaimPool?)
  }

  ghost predicate Mail(s: Guard) { (forall i :: MailOk(s, i)) && forall i, j :: PairOk(s, i, j) }

  ghost predicate Flags(s: Guard) {
    // A current lease means the pool is held, or the Guard has failed.
    && (s.current.Some? ==> s.phase in {Held, Failed} && s.current.value in s.leases)
    // While a claim is queued or under way nobody holds the pool.
    && (s.reserved == Some(Claiming) && !s.actor.Finishing? ==> s.current.None? && s.phase != Held)
    && (s.barrier ==> s.refusing)
    && ActorOk(s)
  }

  /** What the actor relies on where it stands. Past the barrier it is not granting. */
  ghost predicate ActorOk(s: Guard) {
    match s.actor
    case Waiting => true
    case Adopting(lease) => s.reserved == Some(Claiming) && lease in s.leases
    case Checking(lease) => s.reserved == Some(Claiming) && lease in s.leases && !s.serving
    case Granting(lease) => s.reserved == Some(Claiming) && lease in s.leases && !s.serving && !s.barrier
    case Refusing => s.reserved == Some(Claiming) && !s.serving
    case Ending(lease, _) => s.current == Some(lease) && s.reserved in {Some(Releasing), Some(Promoting)}
    case Looking(_) => true
    case TakingOver(lease, _) => s.current == Some(lease) && s.reserved in {Some(Releasing), Some(Promoting)}
    case Clearing(lease, next) => s.current == Some(lease) && s.reserved in {Some(Releasing), Some(Promoting)}
      && next in {Idle, Standby, Failed}
    case Settling(next) => s.current.None? && s.reserved in {Some(Releasing), Some(Promoting)}
      && next in {Idle, Standby, Failed}
    case Finishing => s.reserved.Some?
    case Shutting => s.closing
    case Stopped => s.closing
  }

  predicate IsRequest(step: Step) {
    step.RequestClaim? || step.RequestEnd? || step.Heartbeat? || step.RequestClose? || step.SetRefusing?
      || step.PassBarrier? || step.PollFails?
  }

  predicate IsClaim(step: Step) { step.Adopt? || step.Check? || step.Grant? || step.Refuse? }

  lemma RequestKeeps(s: Guard, step: Step)
    requires Inv(s) && Enabled(s, step) && IsRequest(step)
    ensures Inv(Apply(s, step))
  {
    var t := Apply(s, step);
    forall i: nat ensures MailOk(t, i) { assert MailOk(s, i); }
    forall i: nat, j: nat ensures PairOk(t, i, j) { assert PairOk(s, i, j) && MailOk(s, i); }
  }

  lemma ClaimKeeps(s: Guard, step: Step)
    requires Inv(s) && Enabled(s, step) && IsClaim(step)
    ensures Inv(Apply(s, step))
  {
    var t := Apply(s, step);
    forall i: nat ensures MailOk(t, i) { assert MailOk(s, i); }
    forall i: nat, j: nat ensures PairOk(t, i, j) { assert PairOk(s, i, j); }
  }

  /** The mailbox is as it was and no claim in it can be affected. */
  lemma MailSame(s: Guard, t: Guard)
    requires Mail(s) && t.mailbox == s.mailbox && t.leases == s.leases && t.closing == s.closing
    requires t.actor.Stopped? || s.reserved != Some(Claiming)
      || (t.reserved == s.reserved && !ClaimUnderWay(t) && !t.actor.Finishing?)
    requires s.actor.Stopped? ==> t.actor.Stopped?
    ensures Mail(t)
  {
    forall i: nat ensures MailOk(t, i) { assert MailOk(s, i); }
    forall i: nat, j: nat ensures PairOk(t, i, j) { assert PairOk(s, i, j); }
  }

  lemma EndKeeps(s: Guard, resume: bool, ok: bool)
    requires Inv(s) && Enabled(s, End(resume, ok))
    ensures Inv(ApplyEnd(s, resume, ok))
  {
    MailSame(s, ApplyEnd(s, resume, ok));
  }

  lemma JudgeKeeps(s: Guard, alive: bool, late: bool)
    requires Inv(s) && Enabled(s, Judge(alive, late))
    ensures Inv(ApplyJudge(s, alive, late))
  {
    MailSame(s, ApplyJudge(s, alive, late));
  }

  lemma PromoteKeeps(s: Guard, fenced: bool, ok: bool)
    requires Inv(s) && Enabled(s, Promote(fenced, ok))
    ensures Inv(ApplyPromote(s, fenced, ok))
  {
    MailSame(s, ApplyPromote(s, fenced, ok));
  }

  lemma FinishKeeps(s: Guard)
    requires Inv(s) && Enabled(s, Finish)
    ensures Inv(Apply(s, Finish))
  {
    var t := Apply(s, Finish);
    forall i: nat ensures MailOk(t, i) { assert MailOk(s, i); }
    forall i: nat, j: nat ensures PairOk(t, i, j) { assert PairOk(s, i, j); }
  }

  lemma TailKeeps(s: Guard, step: Step)
    requires Inv(s) && Enabled(s, step) && (step.Look? || step.Clear? || step.Settle? || step.ShutDown?)
    ensures Inv(Apply(s, step))
  {
    MailSame(s, Apply(s, step));
  }

  lemma TakeMail(s: Guard)
    requires Inv(s) && Enabled(s, TakeCommand)
    ensures Mail(ApplyTake(s))
  {
    var t := ApplyTake(s);
    assert MailOk(s, 0);
    forall i: nat ensures MailOk(t, i) { assert MailOk(s, i + 1) && PairOk(s, 0, i + 1); }
    forall i: nat, j: nat ensures PairOk(t, i, j) { assert PairOk(s, i + 1, j + 1); }
  }

  lemma TakeClaimFlags(s: Guard)
    requires Flags(s) && MailOk(s, 0) && Enabled(s, TakeCommand) && s.mailbox[0].ClaimPool?
    ensures Flags(ApplyTake(s))
  {
  }

  lemma TakeOtherFlags(s: Guard)
    requires Flags(s) && MailOk(s, 0) && Enabled(s, TakeCommand) && !s.mailbox[0].ClaimPool?
    ensures Flags(ApplyTake(s))
  {
  }

  lemma TakeKeeps(s: Guard)
    requires Inv(s) && Enabled(s, TakeCommand)
    ensures Inv(ApplyTake(s))
  {
    TakeMail(s);
    assert MailOk(s, 0);
    if s.mailbox[0].ClaimPool? {
      TakeClaimFlags(s);
    } else {
      TakeOtherFlags(s);
    }
  }

  lemma StepKeeps(s: Guard, step: Step)
    requires Inv(s) && Enabled(s, step)
    ensures Inv(Apply(s, step))
  {
    match step
    case TakeCommand => TakeKeeps(s);
    case Adopt(_, _) => ClaimKeeps(s, step);
    case Check => ClaimKeeps(s, step);
    case Grant => ClaimKeeps(s, step);
    case Refuse(_) => ClaimKeeps(s, step);
    case End(resume, ok) => EndKeeps(s, resume, ok);
    case Judge(alive, late) => JudgeKeeps(s, alive, late);
    case Promote(fenced, ok) => PromoteKeeps(s, fenced, ok);
    case Finish => FinishKeeps(s);
    case Look => TailKeeps(s, step);
    case Clear => TailKeeps(s, step);
    case Settle => TailKeeps(s, step);
    case ShutDown(_) => TailKeeps(s, step);
    case _ => RequestKeeps(s, step);
  }

  ghost predicate CanRun(s: Guard, steps: seq<Step>)
    decreases |steps|
  {
    steps == [] || (Enabled(s, steps[0]) && CanRun(Apply(s, steps[0]), steps[1..]))
  }

  ghost function After(s: Guard, steps: seq<Step>): Guard
    requires CanRun(s, steps)
    decreases |steps|
  {
    if steps == [] then s else After(Apply(s, steps[0]), steps[1..])
  }

  const START := Guard(Unconfigured, None, None, false, false, false, false, [], Waiting, {}, false, false)

  lemma {:induction false} RunKeeps(s: Guard, steps: seq<Step>)
    requires Inv(s) && CanRun(s, steps)
    ensures Inv(After(s, steps))
    decreases |steps|
  {
    if steps != [] {
      StepKeeps(s, steps[0]);
      RunKeeps(Apply(s, steps[0]), steps[1..]);
    }
  }

  /** In every run: a current lease means the pool is held or the Guard has failed; a grant is
      made only while nobody holds the pool and the Guard does not serve; and once
      `refuse_claims` has returned, no grant is made any more. */
  lemma LeasesAreSafe(steps: seq<Step>)
    requires CanRun(START, steps)
    ensures var s := After(START, steps);
      && (s.current.Some? ==> s.phase in {Held, Failed})
      && (Enabled(s, Grant) ==> s.current.None? && !s.serving && s.reserved == Some(Claiming) && !s.barrier)
  {
    StartOk();
    RunKeeps(START, steps);
  }

  lemma StartOk()
    ensures Inv(START)
  {
    forall i: nat ensures MailOk(START, i) { }
    forall i: nat, j: nat ensures PairOk(START, i, j) { }
  }

  /** A release, abort or heartbeat of a lease that is not current. */
  predicate IsStale(s: Guard, step: Step) { (step.RequestEnd? || step.Heartbeat?) && s.current != Some(step.lease) }

  lemma StaleIsHarmless(s: Guard, step: Step)
    requires Enabled(s, step) && IsStale(s, step)
    ensures Apply(s, step) == s
  {
  }

  lemma OnlyTheseChange(s: Guard, step: Step)
    requires Enabled(s, step) && Apply(s, step).current != s.current
    ensures step == Grant || step == Clear || step == ShutDown(true)
  {
  }

  /** How a current lease can cease to be current in one step. */
  lemma LeaseEndsOnlyByItsOwn(s: Guard, step: Step)
    requires Flags(s) && Enabled(s, step) && s.current.Some? && Apply(s, step).current != s.current
    ensures Apply(s, step).current.None?
    ensures (step == Clear && s.actor.lease == s.current.value) || step == ShutDown(true)
  {
    OnlyTheseChange(s, step);
  }

  lemma {:induction false} BarrierStays(s: Guard, steps: seq<Step>)
    requires Inv(s) && CanRun(s, steps) && s.barrier
    ensures After(s, steps).barrier && forall i :: 0 <= i < |steps| ==> steps[i] != Grant
    decreases |steps|
  {
    if steps != [] {
      StepKeeps(s, steps[0]);
      assert Apply(s, steps[0]).barrier;
      BarrierStays(Apply(s, steps[0]), steps[1..]);
      forall i | 0 <= i < |steps| ensures steps[i] != Grant { assert i > 0 ==> steps[i] == steps[1..][i - 1]; }
    }
  }

  /** After `refuse_claims` returns, no run contains a grant. */
  lemma NoGrantPastTheBarrier(before: seq<Step>, after: seq<Step>)
    requires CanRun(START, before) && After(START, before).barrier && CanRun(After(START, before), after)
    ensures forall i :: 0 <= i < |after| ==> after[i] != Grant
  {
    StartOk();
    RunKeeps(START, before);
    BarrierStays(After(START, before), after);
  }

  ghost predicate Reaches(s: Guard, steps: seq<Step>, t: Guard) { CanRun(s, steps) && After(s, steps) == t }

  lemma StepFirst(s: Guard, step: Step, t: Guard, rest: seq<Step>, u: Guard)
    requires Enabled(s, step) && Apply(s, step) == t && Reaches(t, rest, u)
    ensures Reaches(s, [step] + rest, u)
  {
    assert ([step] + rest)[1..] == rest;
  }

  lemma ThreeSteps(s: Guard, a: Step, t: Guard, b: Step, u: Guard, c: Step, v: Guard, rest: seq<Step>, w: Guard)
    requires Enabled(s, a) && Apply(s, a) == t && Enabled(t, b) && Apply(t, b) == u && Enabled(u, c)
    requires Apply(u, c) == v && Reaches(v, rest, w)
    ensures Reaches(s, [a, b, c] + rest, w)
  {
    StepFirst(u, c, v, rest, w);
    StepFirst(t, b, u, [c] + rest, w);
    StepFirst(s, a, t, [b] + ([c] + rest), w);
    assert [a] + ([b] + ([c] + rest)) == [a, b, c] + rest;
  }

  /** Whenever the Guard is free, accepts a claim and is not refusing, the claim is granted in six steps,
      and the Guard serves no longer. */
  lemma ClaimIsGranted(s: Guard, lease: Lease)
    requires Claimable(s) && s.actor.Waiting? && s.mailbox == [] && !s.refusing && lease !in s.leases
    ensures
      var t := s.(current := Some(lease), beat := false, phase := Held, serving := false, leases := s.leases + {lease});
      Reaches(s, [RequestClaim(lease), TakeCommand, Adopt(true, false)] + ([Check, Grant, Finish] + []), t)
  {
    var queued := s.(reserved := Some(Claiming), mailbox := [ClaimPool(lease)], leases := s.leases + {lease});
    var adopting := queued.(mailbox := [], actor := Adopting(lease));
    var checking := adopting.(serving := false, actor := Checking(lease));
    var granting := checking.(actor := Granting(lease));
    var granted := checking.(actor := Finishing, current := Some(lease), beat := false, phase := Held);
    var held := granted.(reserved := None, actor := Waiting);
    assert ApplyRequestClaim(s, lease) == queued;
    assert queued.mailbox[1..] == [] && ApplyTake(queued) == adopting;
    assert ApplyAdopt(adopting, true, false) == checking && ApplyCheck(checking) == granting
      && ApplyGrant(granting) == granted;
    ThreeSteps(checking, Check, granting, Grant, granted, Finish, held, [], held);
    ThreeSteps(s, RequestClaim(lease), queued, TakeCommand, adopting, Adopt(true, false), checking,
               [Check, Grant, Finish] + [], held);
  }

  /** Clearing runs to its end. */
  lemma ClearedOut(s: Guard)
    requires s.actor.Clearing? && s.current == Some(s.actor.lease)
    ensures Reaches(s, [Clear, Settle, Finish] + [],
      s.(current := None, phase := s.actor.next, reserved := None, actor := Waiting))
  {
    var cleared := s.(current := None, actor := Settling(s.actor.next));
    var settled := cleared.(phase := s.actor.next, actor := Finishing);
    var free := settled.(reserved := None, actor := Waiting);
    assert Apply(s, Clear) == cleared && Apply(cleared, Settle) == settled && Apply(settled, Finish) == free;
    ThreeSteps(s, Clear, cleared, Settle, settled, Finish, free, [], free);
  }

  /** Having looked, the Guard decides to take over. */
  lemma LooksAndJudges(s: Guard, alive: bool, late: bool, rest: seq<Step>, t: Guard)
    requires Enabled(s, Look) && (alive ==> s.beat && late)
    requires Reaches(s.(reserved := Some(Promoting), actor := TakingOver(s.current.value, !alive)), rest, t)
    ensures Reaches(s, [Look] + ([Judge(alive, late)] + rest), t)
  {
    var looking := s.(actor := Looking(s.current.value));
    var taking := s.(reserved := Some(Promoting), actor := TakingOver(s.current.value, !alive));
    assert Apply(s, Look) == looking;
    assert ApplyJudge(looking, alive, late) == taking;
    StepFirst(looking, Judge(alive, late), taking, rest, t);
    StepFirst(s, Look, looking, [Judge(alive, late)] + rest, t);
  }

  /** Whenever the actor is free to look, a holder that it finds dead is taken over: the Guard serves,
      nobody holds the pool, and it can be claimed again. */
  lemma DeadHolderIsReplaced(s: Guard, late: bool, fenced: bool)
    requires Enabled(s, Look) && !s.failed
    ensures var t := s.(serving := true, current := None, phase := Standby);
      && Reaches(s, [Look] + ([Judge(false, late)] + ([Promote(fenced, true)] + ([Clear, Settle, Finish] + []))), t)
      && Claimable(t)
  {
    var lease := s.current.value;
    var taking := s.(reserved := Some(Promoting), actor := TakingOver(lease, true));
    var taken := taking.(serving := true, actor := Clearing(lease, Standby));
    var t := s.(serving := true, current := None, phase := Standby);
    ClearedOut(taken);
    assert taken.(current := None, phase := Standby, reserved := None, actor := Waiting) == t;
    assert ApplyPromote(taking, fenced, true) == taken;
    StepFirst(taking, Promote(fenced, true), taken, [Clear, Settle, Finish] + [], t);
    LooksAndJudges(s, false, late, [Promote(fenced, true)] + ([Clear, Settle, Finish] + []), t);
  }

  predicate IsHeard(s: Guard, step: Step) {
    step.Heartbeat? && s.current == Some(step.lease) && !s.serving && s.reserved != Some(Promoting)
  }

  predicate IsFenced(s: Guard, step: Step) {
    step.Promote? && s.actor.TakingOver? && !s.actor.dead && step.fenced && step.ok
  }

  lemma BeatPromoted(s: Guard, fenced: bool, ok: bool)
    requires Enabled(s, Promote(fenced, ok))
    ensures ApplyPromote(s, fenced, ok).beat <==> s.beat && !IsFenced(s, Promote(fenced, ok))
  {
  }

  lemma BeatAsked(s: Guard, step: Step)
    requires Enabled(s, step) && IsRequest(step) && !step.Heartbeat?
    ensures Apply(s, step).beat == s.beat
  {
  }

  lemma BeatClaimed(s: Guard, step: Step)
    requires Enabled(s, step) && IsClaim(step) && !step.Grant?
    ensures Apply(s, step).beat == s.beat
  {
  }

  lemma BeatTaken(s: Guard)
    requires s.mailbox != []
    ensures ApplyTake(s).beat == s.beat
  {
  }

  lemma BeatElsewhere(s: Guard, step: Step)
    requires Enabled(s, step) && !step.Promote? && !step.Grant? && !step.Heartbeat? && !step.End? && !step.Judge?
    ensures Apply(s, step).beat == s.beat
  {
    if IsRequest(step) {
      BeatAsked(s, step);
    } else if IsClaim(step) {
      BeatClaimed(s, step);
    } else if step == TakeCommand {
      BeatTaken(s);
    }
  }

  /** A holder counts as one that beats from its first heartbeat while it holds the pool itself, until the next
      grant or until it has been fenced for its silence and is served for. */
  lemma BeatStep(s: Guard, step: Step)
    requires Enabled(s, step)
    ensures Apply(s, step).beat <==> IsHeard(s, step) || (s.beat && step != Grant && !IsFenced(s, step))
  {
    if step.Promote? {
      BeatPromoted(s, step.fenced, step.ok);
    } else if !step.Grant? && !step.Heartbeat? && !step.End? && !step.Judge? {
      BeatElsewhere(s, step);
    }
  }

  /** A holder that has beaten and then stopped keeps its lease. If it can be fenced, the Guard serves for
      it from then on, or fails; if not, nothing changes. */
  lemma SilentHolderIsFenced(s: Guard, fenced: bool, ok: bool)
    requires Enabled(s, Look) && s.beat && (ok && !s.serving ==> !s.failed)
    ensures var t := if !fenced then s else if ok then s.(serving := true, beat := false) else Fail(s);
      Reaches(s, [Look] + ([Judge(true, true)] + ([Promote(fenced, ok)] + ([Finish] + []))), t)
  {
    var taking := s.(reserved := Some(Promoting), actor := TakingOver(s.current.value, false));
    var t := if !fenced then s else if ok then s.(serving := true, beat := false) else Fail(s);
    var taken := t.(reserved := Some(Promoting), actor := Finishing);
    assert ApplyPromote(taking, fenced, ok) == taken;
    assert Apply(taken, Finish) == t;
    StepFirst(taken, Finish, t, [], t);
    StepFirst(taking, Promote(fenced, ok), taken, [Finish] + [], t);
    LooksAndJudges(s, true, true, [Promote(fenced, ok)] + ([Finish] + []), t);
  }

  /** A holder that is alive, and was heard in time if it ever beat, is left alone. */
  lemma LiveHolderIsLeftAlone(s: Guard, late: bool)
    requires Enabled(s, Look) && !(s.beat && late)
    ensures Reaches(s, [Look] + ([Judge(true, late)] + []), s)
  {
    var looking := s.(actor := Looking(s.current.value));
    assert ApplyJudge(looking, true, late) == s;
    StepFirst(looking, Judge(true, late), s, [], s);
    StepFirst(s, Look, looking, [Judge(true, late)] + [], s);
  }

  lemma EndsAndClears(s: Guard, resume: bool)
    requires s.actor.Ending? && s.current == Some(s.actor.lease) && !s.failed
    ensures var serves := s.actor.abort && resume && !s.serving;
      Reaches(s, [End(resume, true)] + ([Clear, Settle, Finish] + []),
        s.(current := None, serving := serves, phase := if serves then Standby else Idle, reserved := None,
           actor := Waiting))
  {
    var serves := s.actor.abort && resume && !s.serving;
    var ended := s.(serving := serves, actor := Clearing(s.actor.lease, if serves then Standby else Idle));
    ClearedOut(ended);
    assert ApplyEnd(s, resume, true) == ended;
    StepFirst(s, End(resume, true), ended, [Clear, Settle, Finish] + [],
              ended.(current := None, phase := ended.actor.next, reserved := None, actor := Waiting));
  }

  /** A release or abort of the current lease ends it. An abort may have the Guard serve again, if it
      does not already; otherwise the pool is idle. */
  lemma HolderIsReleased(s: Guard, abort: bool, resume: bool)
    requires s.actor.Waiting? && s.mailbox == [] && s.current.Some? && s.reserved.None? && !s.closing && !s.failed
    ensures var serves := abort && resume && !s.serving;
      var t := s.(current := None, serving := serves, phase := if serves then Standby else Idle);
      var last := [End(resume, true)] + ([Clear, Settle, Finish] + []);
      Reaches(s, [RequestEnd(s.current.value, abort)] + ([TakeCommand] + last), t)
  {
    var lease, serves := s.current.value, abort && resume && !s.serving;
    var queued := s.(reserved := Some(Releasing), mailbox := [EndLease(lease, abort)]);
    var ending := queued.(mailbox := [], actor := Ending(lease, abort));
    var t := s.(current := None, serving := serves, phase := if serves then Standby else Idle);
    var last := [End(resume, true)] + ([Clear, Settle, Finish] + []);
    EndsAndClears(ending, resume);
    assert queued.mailbox[1..] == [] && ApplyTake(queued) == ending;
    StepFirst(queued, TakeCommand, ending, last, t);
    assert ApplyRequestEnd(s, lease, abort) == queued;
    StepFirst(s, RequestEnd(lease, abort), queued, [TakeCommand] + last, t);
  }

  /** What the Guard does not survive: a hand-over that fails for good, a release, abort or takeover that
      fails, a failing poll and a failing shutdown. */
  predicate Breaks(s: Guard, step: Step) {
    || step == PollFails || step == ShutDown(false)
    || (step.Adopt? && !step.ok && step.fatal) || (step.End? && !step.ok)
    || (step.Promote? && s.actor.TakingOver? && !step.ok && (s.actor.dead || step.fenced))
  }

  lemma FailsInPromotion(s: Guard, step: Step)
    requires Enabled(s, step) && step.Promote?
    ensures Apply(s, step).failed <==> s.failed || Breaks(s, step)
  {
  }

  lemma FailsInEnd(s: Guard, step: Step)
    requires Enabled(s, step) && (step.End? || step.ShutDown?)
    ensures Apply(s, step).failed <==> s.failed || Breaks(s, step)
  {
  }

  lemma FailsAtClaim(s: Guard, step: Step)
    requires Enabled(s, step) && IsClaim(step)
    ensures Apply(s, step).failed <==> s.failed || Breaks(s, step)
  {
  }

  lemma FailsAtRequest(s: Guard, step: Step)
    requires Enabled(s, step) && IsRequest(step)
    ensures Apply(s, step).failed <==> s.failed || Breaks(s, step)
  {
  }

  lemma FailsAtTake(s: Guard)
    requires s.mailbox != []
    ensures ApplyTake(s).failed == s.failed
  {
  }

  /** A Guard fails by such a step only, and never recovers. */
  lemma FailsIff(s: Guard, step: Step)
    requires Enabled(s, step)
    ensures Apply(s, step).failed <==> s.failed || Breaks(s, step)
  {
    if step.Promote? {
      FailsInPromotion(s, step);
    } else if step.End? || step.ShutDown? {
      FailsInEnd(s, step);
    } else if IsRequest(step) {
      FailsAtRequest(s, step);
    } else if IsClaim(step) {
      FailsAtClaim(s, step);
    } else if step == TakeCommand {
      FailsAtTake(s);
    }
  }

  // -- Why a lease ends.

  /** A run with the states it passes through. */
  ghost predicate IsTrace(states: seq<Guard>, steps: seq<Step>) {
    && |states| == |steps| + 1 && states[0] == START
    && forall i :: 0 <= i < |steps| ==> Follows(states, steps, i)
  }

  ghost predicate Follows(states: seq<Guard>, steps: seq<Step>, i: nat) {
    i + 1 < |states| && i < |steps| && Enabled(states[i], steps[i]) && states[i + 1] == Apply(states[i], steps[i])
  }

  /** What sets an end going: the lease's own release or abort while it is current, or its holder
      found dead while it is current. */
  predicate IsOwn(s: Guard, step: Step, lease: Lease) {
    && s.current == Some(lease)
    && (|| (step.RequestEnd? && step.lease == lease)
        || (step.Judge? && !step.alive && s.actor == Looking(lease)))
  }

  ghost predicate Current(states: seq<Guard>, i: nat, lease: Lease) {
    i < |states| && states[i].current == Some(lease)
  }

  /** Something before `n` set the end of this lease going. If it was before `m`, the lease has been
      current from then on until `m`. */
  ghost predicate OwnReason(states: seq<Guard>, steps: seq<Step>, m: nat, n: nat, lease: Lease) {
    exists i: nat :: i < n && i < |steps| && Current(states, i, lease) && IsOwn(states[i], steps[i], lease)
      && forall j :: i <= j <= m ==> Current(states, j, lease)
  }

  /** The Guard shut down between `m` and `n`. */
  ghost predicate ShutBetween(steps: seq<Step>, m: nat, n: nat) {
    exists i: nat :: m <= i < n && i < |steps| && steps[i] == ShutDown(true)
  }

  /** The end of this lease has been asked for or is being carried out. */
  ghost predicate EndUnderWay(s: Guard, lease: Lease) { EndQueued(s.mailbox, lease) || EndHandled(s.actor, lease) }

  ghost predicate EndQueued(mailbox: seq<Command>, lease: Lease) {
    EndLease(lease, true) in mailbox || EndLease(lease, false) in mailbox
  }

  predicate EndHandled(actor: Actor, lease: Lease) {
    match actor
    case Ending(l, _) => l == lease
    case TakingOver(l, dead) => l == lease && dead
    case Clearing(l, _) => l == lease
    case _ => false
  }

  lemma EndRequested(s: Guard, ended: Lease, abort: bool, lease: Lease)
    requires EndUnderWay(ApplyRequestEnd(s, ended, abort), lease)
    ensures EndUnderWay(s, lease) || IsOwn(s, RequestEnd(ended, abort), lease)
  {
    assert forall c :: c in ApplyRequestEnd(s, ended, abort).mailbox ==> c in s.mailbox || c == EndLease(ended, abort);
  }

  lemma EndTaken(s: Guard, lease: Lease)
    requires s.mailbox != [] && EndUnderWay(ApplyTake(s), lease)
    ensures EndUnderWay(s, lease)
  {
    QueueShrinks(s.mailbox, lease);
  }

  lemma QueueShrinks(mailbox: seq<Command>, lease: Lease)
    requires mailbox != []
    ensures EndQueued(mailbox[1..], lease) ==> EndQueued(mailbox, lease)
    ensures mailbox[0].EndLease? && mailbox[0].lease == lease ==> EndQueued(mailbox, lease)
  {
    assert mailbox[0] in mailbox;
  }

  lemma EndJudged(s: Guard, alive: bool, late: bool, lease: Lease)
    requires s.actor.Looking? && EndUnderWay(ApplyJudge(s, alive, late), lease)
    ensures EndUnderWay(s, lease) || IsOwn(s, Judge(alive, late), lease)
  {
  }

  lemma MailGrows(s: Guard, step: Step, lease: Lease)
    requires Enabled(s, step) && (step.RequestClaim? || step.RequestClose?) && EndUnderWay(Apply(s, step), lease)
    ensures EndUnderWay(s, lease)
  {
    var c := if step.RequestClaim? then ClaimPool(step.lease) else CloseGuard;
    assert forall x :: x in Apply(s, step).mailbox ==> x in s.mailbox || x == c;
  }

  lemma EndCarriedOut(s: Guard, resume: bool, ok: bool, lease: Lease)
    requires s.actor.Ending? && EndUnderWay(ApplyEnd(s, resume, ok), lease)
    ensures EndUnderWay(s, lease)
  {
  }

  lemma TakenOver(s: Guard, fenced: bool, ok: bool, lease: Lease)
    requires s.actor.TakingOver? && EndUnderWay(ApplyPromote(s, fenced, ok), lease)
    ensures EndUnderWay(s, lease)
  {
  }

  predicate LeavesEndsAlone(step: Step) {
    !step.RequestEnd? && !step.TakeCommand? && !step.Judge? && !step.End? && !step.Promote? && !step.RequestClaim?
      && !step.RequestClose?
  }

  lemma EndUntouched(s: Guard, step: Step, lease: Lease)
    requires Enabled(s, step) && LeavesEndsAlone(step) && EndUnderWay(Apply(s, step), lease)
    ensures EndUnderWay(s, lease)
  {
    assert Apply(s, step).mailbox == s.mailbox;
  }

  lemma EndBegins(s: Guard, step: Step, lease: Lease)
    requires Enabled(s, step) && EndUnderWay(Apply(s, step), lease)
    ensures EndUnderWay(s, lease) || IsOwn(s, step, lease)
  {
    match step
    case RequestEnd(ended, abort) => EndRequested(s, ended, abort, lease);
    case TakeCommand => EndTaken(s, lease);
    case Judge(alive, late) => EndJudged(s, alive, late, lease);
    case End(resume, ok) => EndCarriedOut(s, resume, ok, lease);
    case Promote(fenced, ok) => TakenOver(s, fenced, ok, lease);
    case RequestClaim(_) => MailGrows(s, step, lease);
    case RequestClose => MailGrows(s, step, lease);
    case _ => EndUntouched(s, step, lease);
  }

  lemma {:induction false} TraceKeeps(states: seq<Guard>, steps: seq<Step>, n: nat)
    requires IsTrace(states, steps) && n <= |steps|
    ensures Inv(states[n])
  {
    if n == 0 {
      StartOk();
    } else {
      TraceKeeps(states, steps, n - 1);
      assert Follows(states, steps, n - 1);
      StepKeeps(states[n - 1], steps[n - 1]);
    }
  }

  lemma {:induction false} EndsHaveAReason(states: seq<Guard>, steps: seq<Step>, n: nat, lease: Lease) returns (i: nat)
    requires IsTrace(states, steps) && n <= |steps| && EndUnderWay(states[n], lease)
    ensures i < n && Current(states, i, lease) && IsOwn(states[i], steps[i], lease)
  {
    if n == 0 {
      assert false;
    } else {
      assert Follows(states, steps, n - 1);
      EndBegins(states[n - 1], steps[n - 1], lease);
      if EndUnderWay(states[n - 1], lease) {
        i := EndsHaveAReason(states, steps, n - 1, lease);
      } else {
        i := n - 1;
      }
    }
  }

  // -- A lease is current once.

  /** The actor is working on a claim for this lease. */
  predicate IsTaking(actor: Actor, lease: Lease) {
    (actor.Adopting? || actor.Checking? || actor.Granting?) && actor.lease == lease
  }

  /** The lease has been used: it is not current, and no claim for it is queued or under way. */
  predicate Spent(s: Guard, lease: Lease) {
    lease in s.leases && s.current != Some(lease) && ClaimPool(lease) !in s.mailbox && !IsTaking(s.actor, lease)
  }

  lemma SpentTaken(s: Guard, lease: Lease)
    requires Spent(s, lease) && s.mailbox != []
    ensures Spent(ApplyTake(s), lease)
  {
    assert s.mailbox[0] in s.mailbox;
    assert forall c :: c in s.mailbox[1..] ==> c in s.mailbox;
  }

  lemma SpentAsked(s: Guard, step: Step, lease: Lease)
    requires Enabled(s, step) && IsRequest(step) && Spent(s, lease)
    ensures Spent(Apply(s, step), lease)
  {
  }

  lemma SpentClaimed(s: Guard, step: Step, lease: Lease)
    requires Enabled(s, step) && IsClaim(step) && Spent(s, lease)
    ensures Spent(Apply(s, step), lease)
  {
  }

  lemma SpentPromoted(s: Guard, fenced: bool, ok: bool, lease: Lease)
    requires s.actor.TakingOver? && Spent(s, lease)
    ensures Spent(ApplyPromote(s, fenced, ok), lease)
  {
  }

  lemma SpentJudged(s: Guard, alive: bool, late: bool, lease: Lease)
    requires s.actor.Looking? && Spent(s, lease)
    ensures Spent(ApplyJudge(s, alive, late), lease)
  {
  }

  lemma SpentEnded(s: Guard, resume: bool, ok: bool, lease: Lease)
    requires s.actor.Ending? && Spent(s, lease)
    ensures Spent(ApplyEnd(s, resume, ok), lease)
  {
  }

  lemma SpentStays(s: Guard, step: Step, lease: Lease)
    requires Enabled(s, step) && Spent(s, lease)
    ensures Spent(Apply(s, step), lease)
  {
    if IsRequest(step) {
      SpentAsked(s, step, lease);
    } else if IsClaim(step) {
      SpentClaimed(s, step, lease);
    } else {
      match step
      case TakeCommand => SpentTaken(s, lease);
      case End(resume, ok) => SpentEnded(s, resume, ok, lease);
      case Judge(alive, late) => SpentJudged(s, alive, late, lease);
      case Promote(fenced, ok) => SpentPromoted(s, fenced, ok, lease);
      case _ =>
    }
  }

  lemma NoClaimWhileHeld(s: Guard, lease: Lease)
    requires Inv(s) && s.current.Some? && !s.actor.Stopped?
    ensures ClaimPool(lease) !in s.mailbox
  {
    forall i | 0 <= i < |s.mailbox| ensures s.mailbox[i] != ClaimPool(lease) { assert MailOk(s, i); }
  }

  lemma EndedIsSpent(s: Guard, step: Step, lease: Lease)
    requires Inv(s) && Enabled(s, step) && s.current == Some(lease) && Apply(s, step).current != Some(lease)
    ensures Spent(Apply(s, step), lease)
  {
    LeaseEndsOnlyByItsOwn(s, step);
    NoClaimWhileHeld(s, lease);
  }

  lemma {:induction false} SpentForever(states: seq<Guard>, steps: seq<Step>, j: nat, k: nat, lease: Lease)
    requires IsTrace(states, steps) && j <= k <= |steps| && Spent(states[j], lease)
    ensures Spent(states[k], lease)
  {
    if j < k {
      SpentForever(states, steps, j, k - 1, lease);
      assert Follows(states, steps, k - 1);
      SpentStays(states[k - 1], steps[k - 1], lease);
    }
  }

  /** In every run, between two moments at which a lease is current it is current throughout: an
      ended lease is never current again. */
  lemma {:induction false} CurrentOnce(states: seq<Guard>, steps: seq<Step>, i: nat, j: nat, m: nat, lease: Lease)
    requires IsTrace(states, steps) && i <= j <= m <= |steps|
    requires states[i].current == Some(lease) && states[m].current == Some(lease)
    ensures states[j].current == Some(lease)
  {
    if i < j {
      CurrentOnce(states, steps, i, j - 1, m, lease);
      if states[j].current != Some(lease) {
        TraceKeeps(states, steps, j - 1);
        assert Follows(states, steps, j - 1);
        EndedIsSpent(states[j - 1], steps[j - 1], lease);
        SpentForever(states, steps, j, m, lease);
      }
    }
  }

  lemma ReasonBefore(states: seq<Guard>, steps: seq<Step>, m: nat, n: nat, i: nat, lease: Lease)
    requires IsTrace(states, steps) && m <= n <= |steps| && i < n && Current(states, i, lease)
    requires IsOwn(states[i], steps[i], lease) && states[m].current == Some(lease)
    ensures OwnReason(states, steps, m, n, lease)
  {
    forall j | i <= j <= m ensures Current(states, j, lease) { CurrentOnce(states, steps, i, j, m, lease); }
  }

  /** In every run: a lease that is current at `m` and no longer at `n` was ended by its own release
      or abort, by its own holder's certain death, or by the Guard shutting down in between. A
      release, abort or death may have come before `m` already, if the end was then still being
      carried out; the lease has been current ever since. Whatever is said or happens in the name
      of any other lease leaves it alone. */
  lemma {:induction false} LeasesEndForAReason(states: seq<Guard>, steps: seq<Step>, m: nat, n: nat, lease: Lease)
    requires IsTrace(states, steps) && m <= n <= |steps|
    requires states[m].current == Some(lease) && states[n].current != Some(lease)
    ensures OwnReason(states, steps, m, n, lease) || ShutBetween(steps, m, n)
  {
    assert Follows(states, steps, n - 1);
    if states[n - 1].current != Some(lease) {
      LeasesEndForAReason(states, steps, m, n - 1, lease);
    } else {
      TraceKeeps(states, steps, n - 1);
      LeaseEndsOnlyByItsOwn(states[n - 1], steps[n - 1]);
      if steps[n - 1] == Clear {
        assert EndUnderWay(states[n - 1], lease);
        var i := EndsHaveAReason(states, steps, n - 1, lease);
        ReasonBefore(states, steps, m, n, i, lease);
      } else {
        assert m <= n - 1 < n;
      }
    }
  }

  /** Whatever is said for a lease that is not current might as well not have been said: the run
      without it passes through the same states. */
  lemma StaleStepsCanBeLeftOut(states: seq<Guard>, steps: seq<Step>, k: nat)
    requires IsTrace(states, steps) && k < |steps| && IsStale(states[k], steps[k])
    ensures IsTrace(states[..k] + states[k + 1..], steps[..k] + steps[k + 1..])
  {
    var fewer, rest := states[..k] + states[k + 1..], steps[..k] + steps[k + 1..];
    assert Follows(states, steps, k);
    StaleIsHarmless(states[k], steps[k]);
    assert states[k + 1] == states[k];
    forall i | 0 <= i < |rest| ensures Follows(fewer, rest, i) {
      if i < k {
        assert Follows(states, steps, i);
      } else {
        assert Follows(states, steps, i + 1);
      }
    }
  }
}
