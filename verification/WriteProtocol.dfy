/**
 The remote write protocol of one pull: a target process, every source process
 that ever answers its endpoint, and the network between them.

 A start_write and the refusal that answers it may be lost, delayed and
 reordered but are not duplicated. Every other message may in addition be
 delivered any number of times: its channel only grows. Nothing restricts which
 live process receives a message, so a Guard taking an endpoint over, a restart,
 and two processes alive on one endpoint are all runs of the model.
 */
module WriteProtocol {
  import opened Prelude
  import opened RemoteOps

  datatype Life = Running | Stopping | Dead

  datatype ProbeAck = ProbeAck(sender: Incarnation, terminal: bool, dead: Option<Incarnation>)
  datatype Done = Done(success: bool, terminal: bool)
  datatype Refused = Refused(sender: Incarnation, retryable: bool)

  /** Where the pull's one request is: a history variable. */
  datatype Place = Nowhere | Travelling(quoted: Option<Incarnation>) | Held(i: Incarnation)

  datatype Sys = Sys(
    life: map<Incarnation, Life>,
    certified: set<Incarnation>,
    status: map<Incarnation, Status>,
    starts: multiset<Option<Incarnation>>,
    refusals: multiset<Refused>,
    metadataAcks: set<Incarnation>,
    probes: set<Option<Incarnation>>,
    probeAcks: set<ProbeAck>,
    dones: set<Done>,
    pull: PullOp,
    native: PullEvent,
    refused: PullEvent,
    place: Place,
    routed: set<Incarnation>)

  datatype Step =
    // Processes.
    | ProcStart(i: Incarnation)
    | ProcStop(i: Incarnation)
    | ProcCrash(i: Incarnation)
    | ProcCertify(i: Incarnation)
    // The network.
    | LoseStart(quoted: Option<Incarnation>)
    | LoseRefusal(refusal: Refused)
    // The target.
    | PullRefused(refusal: Refused, expired: bool, stopping: bool)
    | PullMetadataAck(sender: Incarnation)
    | PullProbeAck(ack: ProbeAck)
    | PullNotified(done: Done, indicesValid: bool)
    | PullPoll(expired: bool, sent: bool, known: Option<Incarnation>)
    // A source process.
    | DeliverStart(i: Incarnation, quoted: Option<Incarnation>, setup: Setup)
    | DeliverProbe(i: Incarnation, expected: Option<Incarnation>, tellDead: bool)
    | SourceReject(i: Incarnation)
    | SourceRouteChanged(i: Incarnation)
    | SourceEmpty(i: Incarnation)
    | SourceSubmit(i: Incarnation, created: bool, posted: bool)
    | SourceCancel(i: Incarnation)
    | NativeStop(i: Incarnation, notified: bool)
    | SourceFinish(i: Incarnation, success: bool)
    | LearnRoute(i: Incarnation)
    | DropRoute(i: Incarnation)
    | CloseNotice(i: Incarnation)

  function Initial(localFill: bool): Sys {
    Sys(map[], {}, map[], multiset{}, multiset{}, {}, {}, {}, {}, NewPull(localFill), Silent, Silent, Nowhere, {})
  }

  predicate IsRunning(s: Sys, i: Incarnation) { i in s.life && s.life[i].Running? }
  predicate IsLive(s: Sys, i: Incarnation) { i in s.life && !s.life[i].Dead? }
  function StatusAt(s: Sys, i: Incarnation): Option<Status> {
    if i in s.status then Some(s.status[i]) else None
  }

  predicate IsQueued(s: Sys, i: Incarnation) { IsLive(s, i) && i in s.status && s.status[i].write.Queued? }
  predicate IsPosted(s: Sys, i: Incarnation) { IsLive(s, i) && i in s.status && s.status[i].write.Posted? }

  predicate MaySubmit(s: Sys, i: Incarnation) {
    IsQueued(s, i) && IsRunning(s, i) && !s.status[i].cancelRequested && s.status[i].write.ready
  }

  predicate Enabled(s: Sys, step: Step) {
    match step
    case ProcStart(i) => i !in s.life
    case ProcStop(i) => IsRunning(s, i)
    case ProcCrash(i) => IsLive(s, i)
    case ProcCertify(i) => i in s.life && s.life[i].Dead?
    case LoseStart(quoted) => quoted in s.starts
    case LoseRefusal(refusal) => refusal in s.refusals
    case PullRefused(refusal, _, _) => refusal in s.refusals
    case PullMetadataAck(sender) => sender in s.metadataAcks
    case PullProbeAck(ack) => ack in s.probeAcks
    case PullNotified(done, _) => done in s.dones
    case PullPoll(_, _, known) => !s.pull.state.Finished? && (known.Some? ==> known.value in s.life)
    case DeliverStart(i, quoted, _) => IsLive(s, i) && quoted in s.starts
    case DeliverProbe(i, expected, tellDead) =>
      IsLive(s, i) && expected in s.probes && (tellDead ==> expected.Some? && expected.value in s.certified)
    case SourceReject(i) => IsQueued(s, i)
    case SourceRouteChanged(i) => IsQueued(s, i)
    case SourceEmpty(i) => MaySubmit(s, i)
    case SourceSubmit(i, _, _) => MaySubmit(s, i)
    case SourceCancel(i) => IsPosted(s, i)
    case NativeStop(i, _) => IsPosted(s, i) && s.status[i].write.running
    case SourceFinish(i, _) => IsPosted(s, i) && !s.status[i].write.running
    case LearnRoute(i) => IsRunning(s, i)
    case DropRoute(i) => IsLive(s, i) && i in s.routed
    case CloseNotice(i) =>
      i in s.life && s.life[i].Stopping? && i in s.status && !s.status[i].write.Posted? && i in s.routed
  }

  predicate Typed(s: Sys) {
    (s.native.Silent? || s.native.Native?) && !s.refused.Native?
  }

  function Tell(s: Sys, done: Done): Sys { s.(dones := s.dones + {done}) }

  /** `finish_source`: the write leaves, and its status with it. */
  function DropWrite(s: Sys, i: Incarnation): Sys { s.(status := s.status - {i}, place := Nowhere) }

  function WithWrite(s: Sys, i: Incarnation, write: Write): Sys
    requires i in s.status
  {
    s.(status := s.status[i := s.status[i].(write := write)])
  }

  function ApplyProbeAck(s: Sys, ack: ProbeAck): Sys {
    if !s.pull.state.Finished? && ProbeAckIsTerminal(s.pull, ack.sender, ack.terminal, ack.dead)
    then s.(refused := Refusal) else s
  }

  function Emit(s: Sys, out: PullOutput): Sys {
    s.(starts := if out.start.Some? then s.starts + multiset{out.start.value} else s.starts,
       place := if out.start.Some? then Travelling(out.start.value) else s.place,
       probes := if out.probe.Some? then s.probes + {out.probe.value} else s.probes)
  }

  function ApplyPoll(s: Sys, expired: bool, sent: bool, known: Option<Incarnation>): (s': Sys)
    ensures s'.life == s.life && s'.certified == s.certified
    requires !s.pull.state.Finished? && Typed(s)
  {
    var (op, out) := Progress(s.pull, MergeRefusal(s.native, s.refused), expired, sent, known);
    Emit(s.(pull := op, native := Silent, refused := Silent), out)
  }

  function ApplyStart(s: Sys, i: Incarnation, quoted: Option<Incarnation>, setup: Setup): (s': Sys)
    ensures s'.life == s.life && s'.certified == s.certified
    requires i in s.life
  {
    var r := HandleStartWrite(i, s.life[i].Stopping?, StatusAt(s, i), quoted, setup);
    s.(starts := s.starts - multiset{quoted},
       status := if r.status.Some? then s.status[i := r.status.value] else s.status,
       place := if r.status == Some(ACCEPTED) && i !in s.status then Held(i) else Nowhere,
       metadataAcks := if r.acked then s.metadataAcks + {i} else s.metadataAcks,
       dones := if r.reply.DoneFailed? then s.dones + {Done(false, true)} else s.dones,
       routed := if s.life[i].Stopping? || setup.FailedRefused? then s.routed else s.routed + {i},
       refusals := if r.reply.RefusedBy? then s.refusals + multiset{Refused(i, r.reply.retryable)} else s.refusals)
  }

  function ApplyProbe(s: Sys, i: Incarnation, expected: Option<Incarnation>, tellDead: bool): (s': Sys)
    ensures s'.life == s.life && s'.certified == s.certified
  {
    var r := HandleProbe(i, StatusAt(s, i), expected);
    s.(status := if r.status.Some? then s.status[i := r.status.value] else s.status,
       probeAcks := s.probeAcks + {ProbeAck(i, r.terminal, if tellDead then expected else None)})
  }

  /** `progress.submit_transfer`: an exception before posting creates nothing; a failed or
      ambiguous post keeps the handle and goes straight to cancellation. */
  function ApplySubmit(s: Sys, i: Incarnation, created: bool, posted: bool): (s': Sys)
    ensures s'.life == s.life && s'.certified == s.certified
    requires i in s.status
  {
    if !created then Tell(DropWrite(s, i), Done(false, true))
    else WithWrite(s, i, Posted(!posted, true))
  }

  /** The first poll that is cancelling tells the target, without being terminal. */
  function ApplyCancel(s: Sys, i: Incarnation): (s': Sys)
    ensures s'.life == s.life && s'.certified == s.certified
    requires i in s.status && s.status[i].write.Posted?
  {
    var st := s.status[i].(noticed := true, write := s.status[i].write.(cancelling := true));
    var s1 := s.(status := s.status[i := st]);
    if s.status[i].noticed then s1 else Tell(s1, Done(false, false))
  }

  function Apply(s: Sys, step: Step): Sys
    requires Enabled(s, step) && Typed(s)
  {
    match step
    case ProcStart(i) => s.(life := s.life[i := Running])
    case ProcStop(i) => s.(life := s.life[i := Stopping])
    case ProcCrash(i) => s.(life := s.life[i := Dead])
    case ProcCertify(i) => s.(certified := s.certified + {i})
    case LoseStart(quoted) => s.(starts := s.starts - multiset{quoted}, place := Nowhere)
    case LoseRefusal(refusal) => s.(refusals := s.refusals - multiset{refusal})
    case PullRefused(refusal, expired, stopping) =>
      var s1 := s.(refusals := s.refusals - multiset{refusal});
      if s.pull.state.Finished? then s1
      else s1.(refused := HandleRefused(s.pull, refusal.sender, refusal.retryable, expired, stopping))
    case PullMetadataAck(sender) =>
      if s.pull.state.Finished? then s else s.(pull := HandleMetadataAck(s.pull, sender))
    case PullProbeAck(ack) => ApplyProbeAck(s, ack)
    case PullNotified(done, indicesValid) =>
      if s.pull.state.Finished? then s
      else s.(native := MergeNotification(s.native, done.success, done.terminal, indicesValid))
    case PullPoll(expired, sent, known) => ApplyPoll(s, expired, sent, known)
    case DeliverStart(i, quoted, setup) => ApplyStart(s, i, quoted, setup)
    case DeliverProbe(i, expected, tellDead) => ApplyProbe(s, i, expected, tellDead)
    case SourceReject(i) => Tell(DropWrite(s, i), Done(false, true))
    case SourceRouteChanged(i) => WithWrite(s, i, Queued(false))
    case SourceEmpty(i) => Tell(DropWrite(s, i), Done(true, true))
    case SourceSubmit(i, created, posted) => ApplySubmit(s, i, created, posted)
    case SourceCancel(i) => ApplyCancel(s, i)
    case NativeStop(i, notified) =>
      var s1 := WithWrite(s, i, s.status[i].write.(running := false));
      if notified then Tell(s1, Done(true, true)) else s1
    case SourceFinish(i, success) =>
      if success && !s.status[i].write.cancelling then DropWrite(s, i)
      else Tell(DropWrite(s, i), Done(false, true))
    // The target's metadata came with another message of its, or was replaced.
    case LearnRoute(i) => s.(routed := s.routed + {i})
    case DropRoute(i) => s.(routed := s.routed - {i})
    case CloseNotice(i) => Tell(s, Done(false, true))
  }

  // ------------------------------------------------------------------ safety

  /** Process `i` is writing into the destination, or may still start to. */
  predicate Active(s: Sys, i: Incarnation) {
    || MaySubmit(s, i)
    || (IsPosted(s, i) && s.status[i].write.running)
  }

  /** A request still travelling that some process, present or future, would accept. */
  predicate Acceptable(s: Sys, quoted: Option<Incarnation>) {
    quoted in s.starts && (quoted.Some? ==> IsRunning(s, quoted.value) && quoted.value !in s.status)
  }

  ghost predicate CanWrite(s: Sys) {
    || (exists i :: i in s.status && Active(s, i))
    || (exists q :: Acceptable(s, q))
  }

  /** Destination memory may be reused only when nobody can still write to it. */
  ghost predicate Safe(s: Sys) {
    s.pull.state.Finished? ==> !CanWrite(s)
  }

  // --------------------------------------------------------------- invariant

  predicate BeforeCancel(s: Sys) { s.pull.state.StartWrite? || s.pull.state.WaitingWriteDone? }

  /** Some process has reported a final outcome. */
  predicate Word(s: Sys) { Done(true, true) in s.dones || Done(false, true) in s.dones }

  predicate Blind(s: Sys) { None in s.probes }

  /** The request is in at most one place. */
  ghost predicate OneRequest(s: Sys) {
    && s.starts == (if s.place.Travelling? then multiset{s.place.quoted} else multiset{})
    && (forall i :: i in s.status ==> (!s.status[i].write.NoWrite? <==> s.place == Held(i)))
    && (s.place.Held? ==> s.place.i in s.status)
    && (s.pull.state.StartWrite? ==> s.place.Nowhere?)
  }

  /** A refusal answers the request; before cancellation it is the only answer. */
  ghost predicate OneRefusal(s: Sys) {
    && |s.refusals| <= 1
    && (s.refusals != multiset{} ==> s.place.Nowhere? && !s.refused.RetryMetadata? && !s.pull.state.StartWrite?)
    && (s.refused.RetryMetadata? ==> s.place.Nowhere? && s.pull.state.WaitingWriteDone? && !s.pull.retried && !Word(s))
    && (BeforeCancel(s) && (!s.place.Nowhere? || s.refusals != multiset{}) ==> s.refused.Silent?)
    && (BeforeCancel(s) && (s.place.Travelling? || s.refusals != multiset{}) ==> !Word(s))
    && (s.pull.state.StartWrite? ==> !Word(s) && s.refused.Silent?)
  }

  /** Nobody writes and nobody can be made to. */
  predicate Quiet(s: Sys) {
    match s.place
    case Nowhere => true
    case Travelling(q) => q.Some? && (!IsRunning(s, q.value) || q.value in s.status)
    case Held(i) => !Active(s, i)
  }

  predicate TerminalMeansQuiet(s: Sys) {
    && (s.pull.state.Finished? || s.refused.Refusal? || Word(s) ==> Quiet(s))
    && (IsTerminal(s.native) ==> Word(s))
  }

  /** Process `i` has given its word that it will not write. */
  predicate Barred(s: Sys, i: Incarnation) {
    && (s.place == Held(i) ==> !Active(s, i))
    && (s.place.Travelling? && IsRunning(s, i) ==> i in s.status)
  }

  ghost predicate ProbesHonest(s: Sys) {
    && (BeforeCancel(s) ==>
          s.probes == {} && s.probeAcks == {} && (forall i :: i in s.status ==> !s.status[i].cancelRequested))
    && (forall e :: e in s.probes && e.Some? ==> e == s.pull.sourceIncarnation)
    && (forall a :: a in s.probeAcks && a.terminal ==> Barred(s, a.sender))
    && (forall a :: a in s.probeAcks && a.dead.Some? ==> a.dead.value in s.life && s.life[a.dead.value].Dead?)
  }

  /** Once the pull names a process, only that process can hold or accept the request. */
  ghost predicate SourceNamed(s: Sys) {
    && (s.pull.state.StartWrite? ==> s.metadataAcks == {})
    && (!s.pull.state.StartWrite? ==>
      match s.pull.sourceIncarnation
      case Some(k) => (s.place.Travelling? ==> s.place.quoted == Some(k)) && (s.place.Held? ==> s.place.i == k)
      case None =>
        && (s.place.Travelling? ==> s.place.quoted.None?)
        && (forall i :: i in s.metadataAcks ==> s.place.Nowhere? || s.place == Held(i)))
  }

  ghost predicate StatusesFormed(s: Sys) {
    forall i :: i in s.status ==>
      && i in s.life
      && (s.status[i].write.NoWrite? ==>
            s.status[i].cancelRequested && (Blind(s) || s.pull.sourceIncarnation == Some(i)))
  }

  ghost predicate NamesKnown(s: Sys) {
    && (s.pull.sourceIncarnation.Some? ==> s.pull.sourceIncarnation.value in s.life)
    && (s.refused.RetryMetadata? ==> s.refused.incarnation in s.life)
    && (s.place.Travelling? && s.place.quoted.Some? ==> s.place.quoted.value in s.life)
    && (forall i :: i in s.metadataAcks ==> i in s.life)
    && (forall r :: r in s.refusals ==> r.sender in s.life)
    && (forall i :: i in s.certified ==> i in s.life && s.life[i].Dead?)
    && (forall a :: a in s.probeAcks ==> a.sender in s.life)
  }

  /** Where the request is and what has been said about it. */
  ghost predicate Request(s: Sys) { Typed(s) && OneRequest(s) && OneRefusal(s) && TerminalMeansQuiet(s) }

  /** Who may say so. */
  ghost predicate Names(s: Sys) { ProbesHonest(s) && SourceNamed(s) && StatusesFormed(s) && NamesKnown(s) }

  ghost predicate Inv(s: Sys) { Request(s) && Names(s) }

  /** A closing process answers for a write it only ever fenced, although the pull never named it. */
  predicate ExposedClose(s: Sys, step: Step) {
    step.CloseNotice? && step.i in s.status && s.status[step.i].write.NoWrite?
    && s.pull.sourceIncarnation != Some(step.i)
  }

  lemma InitialInv(localFill: bool)
    ensures Inv(Initial(localFill))
  {}

  lemma InvSafe(s: Sys)
    requires Inv(s)
    ensures Safe(s)
  {}
}
