/**
 The two halves of a remote write as functions of one poll: a target pull
 (`_TargetPullOp._progress`), and what the control handlers of either side do
 with one message. The clock, the transport's answer to a send and the cached
 incarnation of the endpoint are parameters.
 */
module RemoteOps {
  import opened Prelude

  /** One process start; a restarted process never repeats an incarnation. */
  type Incarnation = nat

  datatype PullState = StartWrite | WaitingWriteDone | WaitingTerminal | Quarantined | Finished

  datatype PullOp = PullOp(
    state: PullState,
    localFill: bool,
    sourceIncarnation: Option<Incarnation>,
    retried: bool,
    probeSent: bool,
    uncertain: bool,
    success: bool)

  function NewPull(localFill: bool): PullOp {
    PullOp(StartWrite, localFill, None, false, false, false, false)
  }

  /** What one poll hands to a pull: nothing, the merged native notifications, or
      what a control message put into `_refused_writes`. */
  datatype PullEvent =
    | Silent
    | Native(terminal: bool, success: bool, cancelled: bool, indicesValid: bool)
    | Refusal
    | RetryMetadata(incarnation: Incarnation)

  datatype Report = Uncertain | Quiesced

  /** What the caller's thread is handed for the operation. */
  datatype Handoff = DiscardFill | FailUncertain | Complete(success: bool) | Cleanup

  datatype PullOutput = PullOutput(
    start: Option<Option<Incarnation>>,
    probe: Option<Option<Incarnation>>,
    reports: seq<Report>,
    handoffs: seq<Handoff>)

  const QUIET_OUTPUT := PullOutput(None, None, [], [])

  function IsTerminal(event: PullEvent): bool {
    event.Refusal? || (event.Native? && event.terminal)
  }

  /** A later notification of one poll wins, but keeps earlier terminal and cancel marks. */
  function MergeNotification(previous: PullEvent, success: bool, terminal: bool, indicesValid: bool): (r: PullEvent)
    requires previous.Silent? || previous.Native?
    ensures r.Native?
    ensures r.terminal <==> terminal || IsTerminal(previous)
    ensures r.cancelled <==> !success || (previous.Native? && previous.cancelled)
  {
    Native(
      terminal || (previous.Native? && previous.terminal),
      success,
      !success || (previous.Native? && previous.cancelled),
      indicesValid)
  }

  /** One native notification, and whether its completed indices fit the request. */
  datatype Note = Note(success: bool, terminal: bool, indicesValid: bool)

  /** All notifications of one poll, in the order they arrived. */
  function MergeAll(notes: seq<Note>): (r: PullEvent)
    ensures r.Silent? || r.Native?
  {
    if notes == [] then Silent
    else
      var note := notes[|notes| - 1];
      MergeNotification(MergeAll(notes[..|notes| - 1]), note.success, note.terminal, note.indicesValid)
  }

  /** However many notifications a poll finds, the event is terminal iff one of them was and
      cancelled iff one of them failed, so a terminal word is a success only if none failed. */
  lemma {:induction false} MergedNotifications(notes: seq<Note>)
    requires notes != []
    ensures MergeAll(notes).Native?
    ensures MergeAll(notes).terminal <==> exists i :: 0 <= i < |notes| && notes[i].terminal
    ensures MergeAll(notes).cancelled <==> exists i :: 0 <= i < |notes| && !notes[i].success
    ensures MergeAll(notes).success && !MergeAll(notes).cancelled <==> forall i :: 0 <= i < |notes| ==> notes[i].success
  {
    var last, rest := |notes| - 1, notes[..|notes| - 1];
    if rest != [] {
      MergedNotifications(rest);
      assert forall i :: 0 <= i < last ==> rest[i] == notes[i];
    }
    assert MergeAll(notes)
      == MergeNotification(MergeAll(rest), notes[last].success, notes[last].terminal, notes[last].indicesValid);
  }

  /** Only a terminal notification outranks a refusal; a retry also yields to a cancel notice. */
  function MergeRefusal(native: PullEvent, refused: PullEvent): (r: PullEvent)
    requires native.Silent? || native.Native?
    requires refused.Silent? || refused.Refusal? || refused.RetryMetadata?
    ensures r == native || r == refused
    ensures IsTerminal(r) <==> IsTerminal(native) || IsTerminal(refused)
    ensures r.RetryMetadata? ==> r == refused && !IsTerminal(native)
  {
    if refused.Silent? then native
    else if IsTerminal(native) then native
    else if refused.RetryMetadata? && native.Native? && native.cancelled then native
    else refused
  }

  /** `_handle_write_refused`: a first retryable refusal in time invites one resend. */
  function HandleRefused(op: PullOp, sender: Incarnation, retryable: bool, expired: bool,
                         stopping: bool): (r: PullEvent)
    ensures r.Refusal? || r == RetryMetadata(sender)
    ensures r.RetryMetadata? <==> retryable && !expired && !stopping && op.state.WaitingWriteDone? && !op.retried
  {
    if retryable && !op.retried && op.state.WaitingWriteDone? && !stopping && !expired
    then RetryMetadata(sender)
    else Refusal
  }

  /** `_handle_target_metadata_ack`: the ack of this request names its source once. */
  function HandleMetadataAck(op: PullOp, sender: Incarnation): PullOp {
    if op.sourceIncarnation.None? then op.(sourceIncarnation := Some(sender)) else op
  }

  /** `handle_probe_ack`: certified death of the quoted process, or its own terminal word. */
  predicate ProbeAckIsTerminal(op: PullOp, sender: Incarnation, terminal: bool, dead: Option<Incarnation>) {
    op.sourceIncarnation.Some? &&
    (dead == op.sourceIncarnation || (op.sourceIncarnation == Some(sender) && terminal))
  }

  function TakeRetry(op: PullOp, event: PullEvent): PullOp {
    if op.state.WaitingWriteDone? && !op.retried && event.RetryMetadata?
    then op.(sourceIncarnation := Some(event.incarnation), retried := true, state := StartWrite)
    else op
  }

  function SendStart(op: PullOp, expired: bool, sent: bool, known: Option<Incarnation>): (PullOp, PullOutput)
    requires op.state.StartWrite?
  {
    var quoting := if op.retried then op else op.(sourceIncarnation := known);
    if expired || !sent then
      (quoting.(success := false, state := Finished), QUIET_OUTPUT.(handoffs := [Complete(false)]))
    else
      (quoting.(state := WaitingWriteDone), QUIET_OUTPUT.(start := Some(quoting.sourceIncarnation)))
  }

  function TakeTerminal(op: PullOp, event: PullEvent, expired: bool): (PullOp, PullOutput)
    requires IsTerminal(event)
  {
    if op.uncertain then
      (op.(state := Finished), QUIET_OUTPUT.(reports := [Quiesced], handoffs := [Cleanup]))
    else
      var success := event.Native? && event.success && !event.cancelled && op.state.WaitingWriteDone?
                     && (!op.localFill || !expired) && event.indicesValid;
      (op.(state := Finished, success := success), QUIET_OUTPUT.(handoffs := [Complete(success)]))
  }

  /** `poll_target`: the first poll of a quarantined pull reports it and probes again. */
  function PollQuarantined(op: PullOp, sent: bool): (PullOp, PullOutput) {
    if op.uncertain then (op, QUIET_OUTPUT)
    else (op.(uncertain := true),
          QUIET_OUTPUT.(probe := if sent then Some(op.sourceIncarnation) else None,
                        reports := [Uncertain], handoffs := [FailUncertain]))
  }

  function CancelWrite(op: PullOp, sent: bool): (PullOp, PullOutput) {
    (op.(state := WaitingTerminal, probeSent := sent),
     QUIET_OUTPUT.(probe := if sent then Some(op.sourceIncarnation) else None,
                   handoffs := if op.localFill then [DiscardFill] else []))
  }

  /** `_TargetPullOp._progress`: one poll of an unfinished pull. */
  function Progress(op: PullOp, event: PullEvent, expired: bool, sent: bool,
                    known: Option<Incarnation>): (PullOp, PullOutput)
    requires !op.state.Finished?
  {
    var op1 := TakeRetry(op, event);
    var cancelled := event.Native? && event.cancelled;
    if op1.state.StartWrite? then SendStart(op1, expired, sent, known)
    else if IsTerminal(event) then TakeTerminal(op1, event, expired)
    else if op1.state.Quarantined? then PollQuarantined(op1, sent)
    else if expired || (cancelled && op1.state.WaitingWriteDone?) then
      if op1.state.WaitingTerminal? then PollQuarantined(op1.(state := Quarantined), sent)
      else CancelWrite(op1, sent)
    else if op1.state.WaitingTerminal? && !op1.probeSent then
      (op1.(probeSent := sent), QUIET_OUTPUT.(probe := if sent then Some(op1.sourceIncarnation) else None))
    else (op1, QUIET_OUTPUT)
  }

  /** A poll sends a request only from the start state, ends only on a terminal event or
      an unsent request, and a probe names whatever incarnation the pull knows. */
  lemma ProgressShape(op: PullOp, event: PullEvent, expired: bool, sent: bool, known: Option<Incarnation>)
    requires !op.state.Finished?
    ensures
      var (op', out) := Progress(op, event, expired, sent, known);
      if TakeRetry(op, event).state.StartWrite? then
        && out.probe.None?
        && op'.sourceIncarnation == (if event.RetryMetadata? && op.state.WaitingWriteDone? then Some(event.incarnation)
                                     else if op.retried then op.sourceIncarnation else known)
        && (op'.state.Finished? || op'.state.WaitingWriteDone?)
        && out.start == (if op'.state.WaitingWriteDone? then Some(op'.sourceIncarnation) else None)
      else
        && out.start.None?
        && op'.sourceIncarnation == op.sourceIncarnation && op'.retried == op.retried
        && !op'.state.StartWrite?
        && (op'.state.WaitingWriteDone? ==> op.state.WaitingWriteDone? && out.probe.None?)
        && (op'.state.Finished? <==> IsTerminal(event))
        && (out.probe.Some? ==> out.probe.value == op.sourceIncarnation)
  {}

  // ---------------------------------------------------------------- source side

  /** The write a status stands for: none yet, one whose transfer was never created
      (`READY_TO_WRITE` or `NOTIFY_FAILURE`), or one whose native handle is retained
      (`WRITING` or `CANCEL_PENDING`) and may still be touching memory. */
  datatype Write = NoWrite | Queued(ready: bool) | Posted(cancelling: bool, running: bool)

  /** `_SourceWriteStatus` of one (target, handle). Its `submitted` flag is set exactly
      while a transfer exists, so it is read off the write. */
  datatype Status = Status(cancelRequested: bool, noticed: bool, write: Write)

  const ACCEPTED := Status(false, false, Queued(true))
  const FENCE := Status(true, false, NoWrite)

  /** How peer setup for a start_write went, and whether its metadata was acknowledged. */
  datatype Setup = FailedNative | FailedRefused(retryable: bool) | Ready(acked: bool, stalled: bool)

  datatype StartReply = NoReply | DoneFailed | RefusedBy(retryable: bool)

  datatype StartOutcome = StartOutcome(status: Option<Status>, reply: StartReply, acked: bool)

  /** `_handle_start_write` for one write identity at the process `self`. */
  function HandleStartWrite(self: Incarnation, stopping: bool, status: Option<Status>,
                            quoted: Option<Incarnation>, setup: Setup): StartOutcome
  {
    if stopping then StartOutcome(status, RefusedBy(false), false)
    else match setup
      case FailedNative => StartOutcome(status, DoneFailed, false)
      case FailedRefused(retryable) => StartOutcome(status, RefusedBy(retryable), false)
      case Ready(acked, stalled) =>
        if status.Some? then
          var fenced := status.value.cancelRequested && !status.value.write.Posted?;
          StartOutcome(status, if fenced then DoneFailed else NoReply, acked)
        else if quoted.Some? && quoted.value != self then StartOutcome(None, RefusedBy(true), acked)
        else if stalled then StartOutcome(None, DoneFailed, acked)
        else StartOutcome(Some(ACCEPTED), NoReply, acked)
  }

  /** A request is accepted exactly by a running process that has its peer set up, has no status for the
      write and can take it, if the request quotes nobody or that very process. A fenced write is
      answered as failed, and the wrong process invites a retry. */
  lemma StartWriteMeans(self: Incarnation, stopping: bool, status: Option<Status>, quoted: Option<Incarnation>,
                        setup: Setup)
    ensures var r := HandleStartWrite(self, stopping, status, quoted, setup);
      var ready, own := !stopping && setup.Ready?, quoted.None? || quoted == Some(self);
      var fenced := status.Some? && status.value.cancelRequested && !status.value.write.Posted?;
      && (r.status == Some(ACCEPTED) && status.None? <==> ready && status.None? && own && !setup.stalled)
      && (r.status == status || (status.None? && r.status == Some(ACCEPTED)))
      && (r.reply.DoneFailed? <==>
          (!stopping && setup.FailedNative?) || (ready && (fenced || (status.None? && own && setup.stalled))))
      && (r.reply == RefusedBy(true) <==>
          (!stopping && setup == FailedRefused(true)) || (ready && status.None? && !own))
      && (r.reply == RefusedBy(false) <==> stopping || setup == FailedRefused(false))
      && (r.acked <==> ready && setup.acked)
  {
  }

  datatype ProbeOutcome = ProbeOutcome(status: Option<Status>, terminal: bool)

  /** `handle_probe`: fence this write identity if the probe is for this process or for whoever answers. */
  function HandleProbe(self: Incarnation, status: Option<Status>, expected: Option<Incarnation>): (r: ProbeOutcome)
    ensures var addressed := expected.None? || expected == Some(self);
      && (r.terminal <==> addressed && (status.Some? ==> !status.value.write.Posted?))
      && (!addressed ==> r.status == status)
      && (addressed ==> r.status.Some? && r.status.value.cancelRequested)
      && (addressed && status.Some? ==>
          r.status.value.(cancelRequested := status.value.cancelRequested) == status.value)
      && (addressed && status.None? ==> r.status.value.write.NoWrite? && !r.status.value.noticed)
  {
    if expected.None? || expected == Some(self) then
      var fenced := if status.Some? then status.value.(cancelRequested := true) else FENCE;
      ProbeOutcome(Some(fenced), !fenced.write.Posted?)
    else
      ProbeOutcome(status, false)
  }

  /** What a refusal comes to for a pull that waits for its write: it asks once more, quoting whoever
      refused, if it may and if the request can be sent; and otherwise it fails. Whatever is
      refused after that ends it. */
  lemma RefusedPullAsksOnceMore(op: PullOp, sender: Incarnation, retryable: bool, expired: bool, stopping: bool,
                                sent: bool, known: Option<Incarnation>)
    requires op.state.WaitingWriteDone? && !op.uncertain
    ensures var event := HandleRefused(op, sender, retryable, expired, stopping);
      var (next, out) := Progress(op, event, expired, sent, known);
      var again := retryable && !op.retried && !stopping && !expired && sent;
      && (again ==> out.start == Some(Some(sender)) && next.state.WaitingWriteDone? && next.retried)
      && (!again ==> out.start.None? && next.state.Finished? && !next.success && out.handoffs == [Complete(false)])
      && (again ==> forall s, r, x, y :: HandleRefused(next, s, r, x, y) == Refusal)
  {
  }
}
