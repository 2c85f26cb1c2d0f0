/**
 Every step of the write protocol keeps its invariant, so every run is safe, except
 for one step of the code: a closing process that answers for a write it only fenced.
 */
module WriteSafety {
  import opened Prelude
  import opened RemoteOps
  import opened WriteProtocol

  // ------------------------------------------------- what one change preserves

  lemma TellKeeps(s: Sys, done: Done)
    requires Inv(s)
    requires done.terminal ==>
      Quiet(s) && !s.pull.state.StartWrite? && !s.refused.RetryMetadata?
      && (BeforeCancel(s) ==> !s.place.Travelling? && s.refusals == multiset{})
    ensures Inv(Tell(s, done))
  {}

  lemma DropKeeps(s: Sys, i: Incarnation)
    requires Inv(s) && s.place == Held(i)
    ensures Inv(DropWrite(s, i))
    ensures !s.pull.state.StartWrite? && !s.refused.RetryMetadata? && s.refusals == multiset{}
  {}

  /** Changing one status without making its process more able to write. */
  ghost predicate Restatuses(s: Sys, i: Incarnation, st: Status) {
    && i in s.status
    && (st.write.NoWrite? <==> s.status[i].write.NoWrite?)
    && (s.status[i].cancelRequested ==> st.cancelRequested)
    && (st.cancelRequested && BeforeCancel(s) ==> s.status[i].cancelRequested)
    && (Active(s.(status := s.status[i := st]), i) ==> Active(s, i))
  }

  lemma RestatusRequest(s: Sys, i: Incarnation, st: Status)
    requires Inv(s) && Restatuses(s, i, st)
    ensures Request(s.(status := s.status[i := st]))
  {
    var s' := s.(status := s.status[i := st]);
    assert forall j :: j in s'.status && j != i ==> s'.status[j] == s.status[j];
    assert s'.status.Keys == s.status.Keys;
  }

  lemma RestatusKeeps(s: Sys, i: Incarnation, st: Status)
    requires Inv(s) && Restatuses(s, i, st)
    ensures Inv(s.(status := s.status[i := st]))
  {
    RestatusRequest(s, i, st);
    var s' := s.(status := s.status[i := st]);
    assert forall j :: j in s'.status && j != i ==> s'.status[j] == s.status[j];
    assert s'.status.Keys == s.status.Keys;
  }

  // -------------------------------------------------------------- source steps

  lemma StartRequest(s: Sys, i: Incarnation, quoted: Option<Incarnation>, setup: Setup)
    requires Inv(s) && Enabled(s, DeliverStart(i, quoted, setup))
    ensures Request(ApplyStart(s, i, quoted, setup))
  {}

  lemma StartNames(s: Sys, i: Incarnation, quoted: Option<Incarnation>, setup: Setup)
    requires Inv(s) && Enabled(s, DeliverStart(i, quoted, setup))
    ensures Names(ApplyStart(s, i, quoted, setup))
  {}

  lemma StartKeeps(s: Sys, i: Incarnation, quoted: Option<Incarnation>, setup: Setup)
    requires Inv(s) && Enabled(s, DeliverStart(i, quoted, setup))
    ensures Inv(ApplyStart(s, i, quoted, setup))
  {
    StartRequest(s, i, quoted, setup);
    StartNames(s, i, quoted, setup);
  }

  lemma FenceKeeps(s: Sys, i: Incarnation)
    requires Inv(s) && i in s.life && i !in s.status && !BeforeCancel(s)
    requires Blind(s) || s.pull.sourceIncarnation == Some(i)
    ensures Inv(s.(status := s.status[i := FENCE]))
  {}

  lemma AckKeeps(s: Sys, ack: ProbeAck)
    requires Inv(s) && ack.sender in s.life && !BeforeCancel(s)
    requires ack.terminal ==> Barred(s, ack.sender)
    requires ack.dead.Some? ==> ack.dead.value in s.life && s.life[ack.dead.value].Dead?
    ensures Inv(s.(probeAcks := s.probeAcks + {ack}))
  {}

  lemma ProbeKeeps(s: Sys, i: Incarnation, expected: Option<Incarnation>, tellDead: bool)
    requires Inv(s) && Enabled(s, DeliverProbe(i, expected, tellDead))
    ensures Inv(ApplyProbe(s, i, expected, tellDead))
  {
    var r := HandleProbe(i, StatusAt(s, i), expected);
    var s1 := s.(status := if r.status.Some? then s.status[i := r.status.value] else s.status);
    if i in s.status {
      RestatusKeeps(s, i, r.status.value);
    } else if r.status.Some? {
      FenceKeeps(s, i);
    }
    AckKeeps(s1, ProbeAck(i, r.terminal, if tellDead then expected else None));
  }

  lemma SourceKeeps(s: Sys, step: Step)
    requires Inv(s) && Enabled(s, step)
    requires step.SourceReject? || step.SourceEmpty? || step.SourceFinish?
    ensures Inv(Apply(s, step))
  {
    DropKeeps(s, step.i);
    var s1 := DropWrite(s, step.i);
    TellKeeps(s1, Done(false, true));
    TellKeeps(s1, Done(true, true));
  }

  lemma SubmitKeeps(s: Sys, i: Incarnation, created: bool, posted: bool)
    requires Inv(s) && Enabled(s, SourceSubmit(i, created, posted))
    ensures Inv(ApplySubmit(s, i, created, posted))
  {
    DropKeeps(s, i);
    TellKeeps(DropWrite(s, i), Done(false, true));
    RestatusKeeps(s, i, s.status[i].(write := Posted(!posted, true)));
  }

  lemma CancelKeeps(s: Sys, i: Incarnation)
    requires Inv(s) && Enabled(s, SourceCancel(i))
    ensures Inv(ApplyCancel(s, i))
  {
    var st := s.status[i].(noticed := true, write := s.status[i].write.(cancelling := true));
    RestatusKeeps(s, i, st);
    TellKeeps(s.(status := s.status[i := st]), Done(false, false));
  }

  lemma NativeKeeps(s: Sys, i: Incarnation, notified: bool)
    requires Inv(s) && Enabled(s, NativeStop(i, notified))
    ensures Inv(Apply(s, NativeStop(i, notified)))
  {
    var w := s.status[i].write.(running := false);
    RestatusKeeps(s, i, s.status[i].(write := w));
    var s1 := WithWrite(s, i, w);
    assert s.place == Held(i);
    TellKeeps(s1, Done(true, true));
  }

  lemma RouteKeeps(s: Sys, i: Incarnation)
    requires Inv(s) && Enabled(s, SourceRouteChanged(i))
    ensures Inv(Apply(s, SourceRouteChanged(i)))
  {
    RestatusKeeps(s, i, s.status[i].(write := Queued(false)));
  }

  lemma CloseKeeps(s: Sys, i: Incarnation)
    requires Inv(s) && Enabled(s, CloseNotice(i)) && !ExposedClose(s, CloseNotice(i))
    ensures Inv(Tell(s, Done(false, true)))
  {
    TellKeeps(s, Done(false, true));
  }

  // -------------------------------------------------------------- target steps

  lemma RefusedKeeps(s: Sys, step: Step)
    requires Inv(s) && Enabled(s, step) && step.PullRefused?
    ensures Inv(Apply(s, step))
  {
    LoseRefusalKeeps(s, step.refusal);
  }

  lemma MetadataAckKeeps(s: Sys, sender: Incarnation)
    requires Inv(s) && sender in s.metadataAcks
    ensures Inv(s.(pull := HandleMetadataAck(s.pull, sender)))
  {}

  lemma ProbeAckKeeps(s: Sys, ack: ProbeAck)
    requires Inv(s) && ack in s.probeAcks
    ensures Inv(ApplyProbeAck(s, ack))
  {}

  lemma NotifiedKeeps(s: Sys, event: PullEvent)
    requires Inv(s) && event.Native? && (event.terminal ==> Word(s))
    ensures Inv(s.(native := event))
  {}

  /** A pull moving on without sending a request. */
  ghost predicate Moves(s: Sys, op: PullOp, probe: Option<Option<Incarnation>>) {
    && !s.pull.state.StartWrite? && !op.state.StartWrite?
    && op.sourceIncarnation == s.pull.sourceIncarnation && op.retried == s.pull.retried
    && (op.state.WaitingWriteDone? ==> s.pull.state.WaitingWriteDone? && probe.None?)
    && (op.state.Finished? ==> Quiet(s))
    && (probe.Some? ==> probe.value == op.sourceIncarnation)
  }

  lemma MoveRequest(s: Sys, op: PullOp, probe: Option<Option<Incarnation>>)
    requires Inv(s) && Moves(s, op, probe)
    ensures Request(Emit(s.(pull := op, native := Silent, refused := Silent), QUIET_OUTPUT.(probe := probe)))
  {}

  lemma MoveKeeps(s: Sys, op: PullOp, probe: Option<Option<Incarnation>>)
    requires Inv(s) && Moves(s, op, probe)
    ensures Inv(Emit(s.(pull := op, native := Silent, refused := Silent), QUIET_OUTPUT.(probe := probe)))
  {
    MoveRequest(s, op, probe);
  }

  /** A request leaves while nothing of this pull is anywhere. */
  lemma RequestKeeps(s: Sys, op: PullOp)
    requires Inv(s) && s.place.Nowhere? && s.refusals == multiset{} && !Word(s) && BeforeCancel(s)
    requires op.state.WaitingWriteDone? || op.state.Finished?
    requires op.sourceIncarnation.Some? ==> op.sourceIncarnation.value in s.life
    requires op.sourceIncarnation.None? ==> s.metadataAcks == {}
    ensures op.state.Finished? ==> Inv(s.(pull := op, native := Silent, refused := Silent))
    ensures op.state.WaitingWriteDone? ==>
      Inv(Emit(s.(pull := op, native := Silent, refused := Silent), QUIET_OUTPUT.(start := Some(op.sourceIncarnation))))
  {}

  lemma PollKeeps(s: Sys, expired: bool, sent: bool, known: Option<Incarnation>)
    requires Inv(s) && Enabled(s, PullPoll(expired, sent, known))
    ensures Inv(ApplyPoll(s, expired, sent, known))
  {
    var event := MergeRefusal(s.native, s.refused);
    var (op, out) := Progress(s.pull, event, expired, sent, known);
    ProgressShape(s.pull, event, expired, sent, known);
    if TakeRetry(s.pull, event).state.StartWrite? {
      RequestKeeps(s, op);
    } else {
      MoveKeeps(s, op, out.probe);
    }
  }

  // ------------------------------------------------------------- process steps

  lemma ProcStartKeeps(s: Sys, i: Incarnation)
    requires Inv(s) && i !in s.life
    ensures Inv(s.(life := s.life[i := Running]))
  {}

  lemma ProcEndKeeps(s: Sys, i: Incarnation, life: Life)
    requires Inv(s) && IsLive(s, i) && !life.Running?
    requires life.Stopping? ==> IsRunning(s, i)
    ensures Inv(s.(life := s.life[i := life]))
  {}

  lemma CertifyKeeps(s: Sys, i: Incarnation)
    requires Inv(s) && Enabled(s, ProcCertify(i))
    ensures Inv(Apply(s, ProcCertify(i)))
  {}

  lemma LoseStartKeeps(s: Sys, quoted: Option<Incarnation>)
    requires Inv(s) && quoted in s.starts
    ensures Inv(s.(starts := s.starts - multiset{quoted}, place := Nowhere))
  {}

  lemma LoseRefusalKeeps(s: Sys, refusal: Refused)
    requires Inv(s) && refusal in s.refusals
    ensures Inv(s.(refusals := s.refusals - multiset{refusal}))
    ensures s.refusals - multiset{refusal} == multiset{}
  {
    assert |s.refusals - multiset{refusal}| == |s.refusals| - 1;
  }

  lemma RoutedKeeps(s: Sys, routed: set<Incarnation>)
    requires Inv(s)
    ensures Inv(s.(routed := routed))
  {}

  predicate IsSourceStep(step: Step) {
    step.DeliverStart? || step.DeliverProbe? || step.SourceReject? || step.SourceRouteChanged? || step.SourceEmpty?
    || step.SourceSubmit? || step.SourceCancel? || step.NativeStop? || step.SourceFinish? || step.CloseNotice?
    || step.LearnRoute? || step.DropRoute?
  }

  lemma SourceStepKeeps(s: Sys, step: Step)
    requires Inv(s) && Enabled(s, step) && IsSourceStep(step) && !ExposedClose(s, step)
    ensures Inv(Apply(s, step))
  {
    match step
    case DeliverStart(i, quoted, setup) => StartKeeps(s, i, quoted, setup);
    case DeliverProbe(i, expected, tellDead) => ProbeKeeps(s, i, expected, tellDead);
    case SourceReject(_) => SourceKeeps(s, step);
    case SourceRouteChanged(i) => RouteKeeps(s, i);
    case SourceEmpty(_) => SourceKeeps(s, step);
    case SourceSubmit(i, created, posted) => SubmitKeeps(s, i, created, posted);
    case SourceCancel(i) => CancelKeeps(s, i);
    case NativeStop(i, notified) => NativeKeeps(s, i, notified);
    case SourceFinish(_, _) => SourceKeeps(s, step);
    case LearnRoute(i) => RoutedKeeps(s, s.routed + {i});
    case DropRoute(i) => RoutedKeeps(s, s.routed - {i});
    case CloseNotice(i) => CloseKeeps(s, i);
  }

  /** One step of any participant keeps the invariant unless it is an exposed close. */
  lemma StepKeeps(s: Sys, step: Step)
    requires Inv(s) && Enabled(s, step) && !ExposedClose(s, step)
    ensures Inv(Apply(s, step))
  {
    if IsSourceStep(step) {
      SourceStepKeeps(s, step);
    } else {
      match step
      case ProcStart(i) => ProcStartKeeps(s, i);
      case ProcStop(i) => ProcEndKeeps(s, i, Stopping);
      case ProcCrash(i) => ProcEndKeeps(s, i, Dead);
      case ProcCertify(i) => CertifyKeeps(s, i);
      case LoseStart(quoted) => LoseStartKeeps(s, quoted);
      case LoseRefusal(refusal) => LoseRefusalKeeps(s, refusal);
      case PullRefused(_, _, _) => RefusedKeeps(s, step);
      case PullMetadataAck(sender) => MetadataAckKeeps(s, sender);
      case PullProbeAck(ack) => ProbeAckKeeps(s, ack);
      case PullNotified(done, indicesValid) =>
        NotifiedKeeps(s, MergeNotification(s.native, done.success, done.terminal, indicesValid));
      case PullPoll(expired, sent, known) => PollKeeps(s, expired, sent, known);
    }
  }
}
