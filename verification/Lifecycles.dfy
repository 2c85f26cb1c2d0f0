/**
 How operations end. A native copy (within DRAM, or between DRAM and disk) and a remote pull are
 polled until they are done; on the way an operation may be declared uncertain, and then it is
 failed at once but keeps its native handle until the transfer is known to be over.
 */
module Lifecycles {
  import opened Prelude
  import opened RemoteOps

  // -- Native copies: `_LocalCopyOp.progress` and `_G3TransferOp.progress`.

  datatype Copy = Copy(transfer: Option<nat>, latched: bool, uncertain: bool, success: bool)

  const NEW_COPY := Copy(None, false, false, false)

  datatype Submit = Raised | Handle(id: nat, submitted: bool)

  /** What one poll observes: the clock against the two deadlines, and the transport. */
  datatype Look = Look(expiredBefore: bool, submit: Submit, expired: bool, result: Option<bool>, abandoned: bool)

  datatype CopyOutput = CopyOutput(done: bool, reports: seq<Report>, handed: Option<Copy>)

  function PollCopy(copy: Copy, look: Look): (Copy, CopyOutput) {
    if copy.transfer.None? && (look.expiredBefore || look.submit.Raised?) then
      (copy, CopyOutput(true, [], Some(copy)))
    else
      var c := if copy.transfer.Some? then copy
               else copy.(transfer := Some(look.submit.id), latched := !look.submit.submitted);
      var d := if look.expired then c.(latched := true) else c;
      match look.result
      case Some(ok) =>
        var e := d.(transfer := None, success := ok && !d.latched);
        (e, CopyOutput(true, if d.uncertain then [Quiesced] else [], Some(e)))
      case None =>
        if d.latched && !d.uncertain && look.abandoned then
          var e := d.(uncertain := true);
          (e, CopyOutput(false, [Uncertain], Some(e)))
        else (d, CopyOutput(false, [], None))
  }

  /** What the caller's thread makes of a copy that is handed over: an uncertain one still in
      flight fails the operation, and when it is finally over nothing is left to complete. */
  function Completions(handed: Option<Copy>): seq<bool> {
    match handed
    case None => []
    case Some(item) => if !item.uncertain then [item.success] else if item.transfer.Some? then [false] else []
  }

  datatype CopyTrace = CopyTrace(copy: Copy, done: bool, reports: seq<Report>, completions: seq<bool>)

  /** Polling goes on until the copy is done. */
  function RunCopy(looks: seq<Look>): CopyTrace {
    if looks == [] then CopyTrace(NEW_COPY, false, [], [])
    else
      var before := RunCopy(looks[..|looks| - 1]);
      if before.done then before
      else
        var (copy, out) := PollCopy(before.copy, looks[|looks| - 1]);
        CopyTrace(copy, out.done, before.reports + out.reports, before.completions + Completions(out.handed))
  }

  /** One poll of a copy, as far as completions go. */
  lemma CopyStep(copy: Copy, look: Look)
    requires !copy.success && (copy.uncertain ==> copy.latched && copy.transfer.Some?)
    ensures var (next, out) := PollCopy(copy, look);
      && (copy.uncertain ==>
          && next.uncertain && next.latched && !next.success && Completions(out.handed) == []
          && out.reports == (if out.done then [Quiesced] else []) && (next.transfer.Some? <==> !out.done))
      && (!copy.uncertain && next.uncertain ==>
          && next.latched && next.transfer.Some? && !out.done && !next.success
          && out.reports == [Uncertain] && Completions(out.handed) == [false])
      && (!copy.uncertain && !next.uncertain ==>
          && out.reports == []
          && Completions(out.handed) == (if out.done then [next.success] else []) && (!out.done ==> !next.success))
  {
  }

  /** Every run of a copy reports nothing, or that it became uncertain, or that and its end; it
      completes exactly once, when it is done or when it becomes uncertain; an uncertain copy
      keeps its handle until it is done, and never succeeds. */
  lemma {:induction false} CopyEndsOnce(looks: seq<Look>)
    ensures var t := RunCopy(looks);
      && (t.reports == [] || t.reports == [Uncertain] || t.reports == [Uncertain, Quiesced])
      && (t.reports == [] ==> !t.copy.uncertain && |t.completions| == if t.done then 1 else 0)
      && (t.reports == [Uncertain] ==>
            t.copy.uncertain && t.copy.latched && !t.done && t.copy.transfer.Some? && t.completions == [false])
      && (t.reports == [Uncertain, Quiesced] ==>
            t.copy.uncertain && t.done && t.copy.transfer.None? && !t.copy.success && t.completions == [false])
      && (!t.done ==> !t.copy.success)
  {
    if looks != [] {
      var before := RunCopy(looks[..|looks| - 1]);
      CopyEndsOnce(looks[..|looks| - 1]);
      if !before.done {
        CopyStep(before.copy, looks[|looks| - 1]);
      }
    }
  }

  // -- How a copy ends, from what the polls see.

  /** The transfer is under way and no poll has seen it end. */
  ghost predicate Running(looks: seq<Look>) {
    && looks != [] && !looks[0].expiredBefore && looks[0].submit.Handle?
    && forall i :: 0 <= i < |looks| ==> looks[i].result.None?
  }

  ghost predicate Late(looks: seq<Look>) { exists i :: 0 <= i < |looks| && looks[i].expired }

  lemma RunningMore(looks: seq<Look>)
    requires looks != []
    ensures var last, rest := looks[|looks| - 1], looks[..|looks| - 1];
      && (rest != [] ==> (Running(looks) <==> Running(rest) && last.result.None?))
      && (rest == [] ==> (Running(looks) <==> !last.expiredBefore && last.submit.Handle? && last.result.None?))
      && (Late(looks) <==> Late(rest) || last.expired)
  {
    var last, rest := |looks| - 1, looks[..|looks| - 1];
    assert forall i :: 0 <= i < last ==> rest[i] == looks[i];
    if Running(rest) && looks[last].result.None? {
      forall i | 0 <= i < |looks| ensures looks[i].result.None? { assert i < last ==> rest[i] == looks[i]; }
    }
    if Late(rest) {
      var i :| 0 <= i < |rest| && rest[i].expired;
      assert looks[i].expired;
    }
  }

  lemma {:induction false} RunningIff(looks: seq<Look>)
    ensures var t := RunCopy(looks);
      && (Running(looks) <==> looks != [] && !t.done)
      && (Running(looks) ==> t.copy.transfer.Some? && (t.copy.latched <==> !looks[0].submit.submitted || Late(looks)))
  {
    if looks != [] {
      RunningIff(looks[..|looks| - 1]);
      RunningMore(looks);
      if |looks| == 1 {
        assert looks[..0] == [] && !Late(looks[..0]);
      }
    }
  }

  /** The poll at `n` is the first to see the transfer end. The transfer was submitted in time and has
      succeeded, and no poll was late. */
  ghost predicate SucceedsAt(looks: seq<Look>, n: nat) {
    && n < |looks| && looks[n].result == Some(true)
    && !looks[0].expiredBefore && looks[0].submit.Handle? && looks[0].submit.submitted
    && (forall i :: 0 <= i < n ==> looks[i].result.None?) && (forall i :: 0 <= i <= n ==> !looks[i].expired)
  }

  ghost predicate CopySucceeds(looks: seq<Look>) { exists n: nat :: SucceedsAt(looks, n) }

  lemma SuccessMore(looks: seq<Look>)
    requires looks != []
    ensures CopySucceeds(looks) <==> CopySucceeds(looks[..|looks| - 1]) || SucceedsAt(looks, |looks| - 1)
  {
    var last, rest := |looks| - 1, looks[..|looks| - 1];
    forall n: nat | n < last ensures SucceedsAt(looks, n) <==> SucceedsAt(rest, n) {
      assert forall i :: 0 <= i < last ==> rest[i] == looks[i];
    }
    if CopySucceeds(looks) {
      var n: nat :| SucceedsAt(looks, n);
      assert n < last ==> SucceedsAt(rest, n);
    }
    if CopySucceeds(rest) {
      var n: nat :| SucceedsAt(rest, n);
      assert SucceedsAt(looks, n);
    }
  }

  lemma SucceedsNow(looks: seq<Look>)
    requires looks != []
    ensures var last, rest := looks[|looks| - 1], looks[..|looks| - 1];
      SucceedsAt(looks, |looks| - 1) <==>
        && last.result == Some(true) && !last.expired && looks[0].submit.Handle? && looks[0].submit.submitted
        && (if rest == [] then !last.expiredBefore else Running(rest) && !Late(rest))
  {
    var last, rest := |looks| - 1, looks[..|looks| - 1];
    assert forall i :: 0 <= i < last ==> rest[i] == looks[i];
    if rest != [] && Running(rest) && !Late(rest) {
      forall i | 0 <= i < last ensures looks[i].result.None? && !looks[i].expired { assert rest[i] == looks[i]; }
    }
  }

  /** In every run: a copy completes with success exactly if its transfer was submitted in time and the
      first poll to see it end saw a success, with no poll up to then late. */
  lemma {:induction false} CopySucceedsIff(looks: seq<Look>)
    ensures true in RunCopy(looks).completions <==> CopySucceeds(looks)
  {
    if looks != [] {
      var rest := looks[..|looks| - 1];
      CopySucceedsIff(rest);
      SuccessMore(looks);
      SucceedsNow(looks);
      RunningIff(rest);
      CopyEndsOnce(rest);
      CopyEndsOnce(looks);
    }
  }

  /** Some poll has given up waiting for a transfer that was late or not properly submitted. */
  ghost predicate AbandonedAt(looks: seq<Look>, n: nat) {
    && n < |looks| && looks[n].abandoned && !looks[0].expiredBefore && looks[0].submit.Handle?
    && (forall i :: 0 <= i <= n ==> looks[i].result.None?)
    && (!looks[0].submit.submitted || exists i :: 0 <= i <= n && looks[i].expired)
  }

  ghost predicate WasAbandoned(looks: seq<Look>) { exists n: nat :: AbandonedAt(looks, n) }

  lemma AbandonedMore(looks: seq<Look>)
    requires looks != []
    ensures WasAbandoned(looks) <==> WasAbandoned(looks[..|looks| - 1]) || AbandonedAt(looks, |looks| - 1)
  {
    var last, rest := |looks| - 1, looks[..|looks| - 1];
    forall n: nat | n < last ensures AbandonedAt(looks, n) <==> AbandonedAt(rest, n) {
      assert forall i :: 0 <= i < last ==> rest[i] == looks[i];
    }
    if WasAbandoned(looks) {
      var n: nat :| AbandonedAt(looks, n);
      assert n < last ==> AbandonedAt(rest, n);
    }
    if WasAbandoned(rest) {
      var n: nat :| AbandonedAt(rest, n);
      assert AbandonedAt(looks, n);
    }
  }

  /** In every run: a copy is done exactly if it was never submitted or a poll saw its transfer end, and is
      reported uncertain exactly if before that some poll gave up on a late one. */
  lemma {:induction false} CopyIsGivenUpIff(looks: seq<Look>)
    ensures RunCopy(looks).done <==> looks != [] && !Running(looks)
    ensures Uncertain in RunCopy(looks).reports <==> WasAbandoned(looks)
  {
    RunningIff(looks);
    if looks != [] {
      var last, rest := |looks| - 1, looks[..|looks| - 1];
      CopyIsGivenUpIff(rest);
      RunningIff(rest);
      RunningMore(looks);
      AbandonedMore(looks);
      CopyEndsOnce(rest);
      assert AbandonedAt(looks, last) <==>
        looks[last].abandoned && Running(looks) && (!looks[0].submit.submitted || Late(looks));
    }
  }

  /** The native handle is dropped only by the poll that saw the transfer end. */
  lemma HandleIsKept(copy: Copy, look: Look)
    requires copy.transfer.Some?
    ensures var (next, out) := PollCopy(copy, look);
      if look.result.Some? then out.done && next.transfer.None? else !out.done && next.transfer == copy.transfer
  {
  }

  /** In every run: once a transfer is under way, the copy holds that very handle after every
      later poll until one sees the transfer end, and is done exactly then. */
  lemma {:induction false} HandleIsKeptWhileRunning(looks: seq<Look>, n: nat)
    requires n <= |looks| && RunCopy(looks[..n]).copy.transfer.Some?
    ensures !RunCopy(looks).done ==> RunCopy(looks).copy.transfer == RunCopy(looks[..n]).copy.transfer
    ensures RunCopy(looks).done <==> SawEnd(looks, n)
  {
    CopyEndsOnce(looks[..n]);
    DoneDropsHandle(looks[..n]);
    if n == |looks| {
      assert looks[..n] == looks;
    } else {
      var last, rest := |looks| - 1, looks[..|looks| - 1];
      assert rest[..n] == looks[..n];
      HandleIsKeptWhileRunning(rest, n);
      EndSeen(looks, n);
      if !RunCopy(rest).done {
        HandleIsKept(RunCopy(rest).copy, looks[last]);
      }
    }
  }

  /** Some poll from the `n`th on has seen the transfer end. */
  ghost predicate SawEnd(looks: seq<Look>, n: nat) { exists i :: n <= i < |looks| && looks[i].result.Some? }

  lemma EndSeen(looks: seq<Look>, n: nat)
    requires n < |looks|
    ensures SawEnd(looks, n) <==> SawEnd(looks[..|looks| - 1], n) || looks[|looks| - 1].result.Some?
  {
    var last := |looks| - 1;
    if SawEnd(looks[..last], n) {
      var i :| n <= i < last && looks[..last][i].result.Some?;
      assert looks[i].result.Some?;
    }
    if SawEnd(looks, n) {
      var i :| n <= i < |looks| && looks[i].result.Some?;
      assert i < last ==> looks[..last][i] == looks[i];
    }
  }

  lemma {:induction false} DoneDropsHandle(looks: seq<Look>)
    ensures RunCopy(looks).done ==> RunCopy(looks).copy.transfer.None?
  {
    if looks != [] {
      DoneDropsHandle(looks[..|looks| - 1]);
    }
  }

  // -- Remote pulls.

  /** What a control message may have put aside for a pull. */
  type Word = e: PullEvent | e.Silent? || e.Refusal? || e.RetryMetadata? witness Silent

  /** What one poll of a pull observes: the native notifications, a control message's word, the clock,
      whether a message can be sent, and who is known to be at the endpoint. */
  datatype PullLook = PullLook(notes: seq<Note>, word: Word, expired: bool, sent: bool, known: Option<Incarnation>)

  function EventOf(look: PullLook): PullEvent { MergeRefusal(MergeAll(look.notes), look.word) }

  datatype PullTrace = PullTrace(op: PullOp, reports: seq<Report>, completions: seq<bool>, discards: nat)

  /** The handoffs that complete an operation. */
  function PullCompletions(handoffs: seq<Handoff>): seq<bool> {
    if handoffs == [] then []
    else
      (match handoffs[0]
       case FailUncertain => [false]
       case Complete(success) => [success]
       case _ => []) + PullCompletions(handoffs[1..])
  }

  function RunPull(localFill: bool, looks: seq<PullLook>): PullTrace {
    if looks == [] then PullTrace(NewPull(localFill), [], [], 0)
    else
      var before, look := RunPull(localFill, looks[..|looks| - 1]), looks[|looks| - 1];
      if before.op.state.Finished? then before
      else
        var (op, out) := Progress(before.op, EventOf(look), look.expired, look.sent, look.known);
        PullTrace(op, before.reports + out.reports, before.completions + PullCompletions(out.handoffs),
                  before.discards + if DiscardFill in out.handoffs then 1 else 0)
  }

  ghost predicate NoneFailed(notes: seq<Note>) { forall i :: 0 <= i < |notes| ==> notes[i].success }

  ghost predicate SomeTerminal(notes: seq<Note>) { exists i :: 0 <= i < |notes| && notes[i].terminal }

  /** The write has ended: some notification is terminal, none failed, and what the last one says was
      written fits the request. */
  ghost predicate SaysDone(notes: seq<Note>) {
    notes != [] && SomeTerminal(notes) && NoneFailed(notes) && notes[|notes| - 1].indicesValid
  }

  /** What a poll makes of what it finds. */
  lemma EventMeans(look: PullLook)
    ensures var event := EventOf(look);
      && (IsTerminal(event) <==> SomeTerminal(look.notes) || look.word.Refusal?)
      && (event.Native? && event.terminal && event.success && !event.cancelled && event.indicesValid
          <==> SaysDone(look.notes))
      && (SomeTerminal(look.notes) ==> event.Native?)
      && (!IsTerminal(event) ==> (event.Native? && event.cancelled <==> !NoneFailed(look.notes)))
      && (event.RetryMetadata? <==> look.word.RetryMetadata? && !SomeTerminal(look.notes) && NoneFailed(look.notes))
  {
    if look.notes != [] {
      MergedNotifications(look.notes);
    }
  }

  /** The same for pulls, whatever messages arrive and however the clock runs. Success is only
      ever reported by a pull that was neither cancelled nor quarantined. */
  lemma {:induction false} PullEndsOnce(localFill: bool, looks: seq<PullLook>)
    ensures var t := RunPull(localFill, looks);
      && (t.reports == [] || t.reports == [Uncertain] || t.reports == [Uncertain, Quiesced])
      && (t.reports == [] ==>
            !t.op.uncertain && !t.op.state.Quarantined? && |t.completions| == if t.op.state.Finished? then 1 else 0)
      && (t.reports == [Uncertain] ==> t.op.uncertain && t.op.state.Quarantined? && t.completions == [false])
      && (t.reports == [Uncertain, Quiesced] ==> t.op.uncertain && t.op.state.Finished? && t.completions == [false])
      && (true in t.completions ==> t.op.success && t.op.state.Finished?)
      && (t.op.success ==> t.op.state.Finished? && t.reports == [])
  {
    if looks != [] {
      PullEndsOnce(localFill, looks[..|looks| - 1]);
      var before, look := RunPull(localFill, looks[..|looks| - 1]), looks[|looks| - 1];
      if !before.op.state.Finished? {
        PullStep(before.op, look);
      }
    }
  }

  /** One poll of a pull, as far as completions go. */
  lemma PullStep(op: PullOp, look: PullLook)
    requires !op.state.Finished? && !op.success && (op.uncertain <==> op.state.Quarantined?)
    ensures var (next, out) := Progress(op, EventOf(look), look.expired, look.sent, look.known);
      && (op.uncertain && !next.state.Finished? ==>
          && out.reports == [] && PullCompletions(out.handoffs) == []
          && next.uncertain && next.state.Quarantined? && !next.success)
      && (op.uncertain && next.state.Finished? ==>
            out.reports == [Quiesced] && PullCompletions(out.handoffs) == [] && next.uncertain && !next.success)
      && (!op.uncertain && next.state.Finished? ==>
            out.reports == [] && PullCompletions(out.handoffs) == [next.success] && !next.uncertain)
      && (!op.uncertain && next.state.Quarantined? ==>
            out.reports == [Uncertain] && PullCompletions(out.handoffs) == [false] && next.uncertain && !next.success)
      && (!op.uncertain && !next.state.Finished? && !next.state.Quarantined? ==>
          out.reports == [] && PullCompletions(out.handoffs) == [] && !next.uncertain && !next.success)
  {
    var (next, out) := Progress(op, EventOf(look), look.expired, look.sent, look.known);
    assert |out.handoffs| <= 1;
    assert |out.handoffs| == 1 ==> out.handoffs[1..] == [];
  }

  // -- When a pull succeeds.

  /** The first invitation to ask again; later ones are not taken up. */
  ghost predicate IsInvited(looks: seq<PullLook>, i: nat) {
    && 0 < i < |looks| && looks[i].word.RetryMetadata?
    && forall j :: 0 < j < i ==> !looks[j].word.RetryMetadata?
  }

  /** A poll that leaves a pull waiting for its write: in time, nothing has failed or ended or been
      refused, and if the request is to be sent again it can be. */
  ghost predicate IsCalm(looks: seq<PullLook>, i: nat) {
    && i < |looks| && !looks[i].expired && NoneFailed(looks[i].notes) && !SomeTerminal(looks[i].notes)
    && !looks[i].word.Refusal? && (IsInvited(looks, i) ==> looks[i].sent)
  }

  /** The request was sent, and every poll since was calm. */
  ghost predicate KeepsWaiting(looks: seq<PullLook>) {
    looks != [] && !looks[0].expired && looks[0].sent && forall i: nat :: 0 < i < |looks| ==> IsCalm(looks, i)
  }

  /** The poll at `n` finds the write done; one that fills local memory must be in time for it. */
  ghost predicate PulledAt(localFill: bool, looks: seq<PullLook>, n: nat) {
    0 < n < |looks| && KeepsWaiting(looks[..n]) && SaysDone(looks[n].notes) && (localFill ==> !looks[n].expired)
  }

  ghost predicate PullSucceeds(localFill: bool, looks: seq<PullLook>) { exists n: nat :: PulledAt(localFill, looks, n) }

  ghost predicate WasInvited(looks: seq<PullLook>) { exists i: nat :: IsInvited(looks, i) }

  lemma InvitedMore(looks: seq<PullLook>)
    requires |looks| > 1
    ensures var last, rest := |looks| - 1, looks[..|looks| - 1];
      && (forall i: nat :: i < last ==> (IsInvited(looks, i) <==> IsInvited(rest, i)))
      && (IsInvited(looks, last) <==> looks[last].word.RetryMetadata? && !WasInvited(rest))
      && (WasInvited(looks) <==> WasInvited(rest) || looks[last].word.RetryMetadata?)
  {
    var last, rest := |looks| - 1, looks[..|looks| - 1];
    forall i: nat | i < last ensures IsInvited(looks, i) <==> IsInvited(rest, i) {
      assert forall j :: 0 <= j < last ==> rest[j] == looks[j];
    }
    if exists i :: 0 < i < last && looks[i].word.RetryMetadata? {
      FirstInvitation(rest, last);
    }
    assert WasInvited(rest) <==> exists i :: 0 < i < last && looks[i].word.RetryMetadata? by {
      if WasInvited(rest) {
        var i: nat :| IsInvited(rest, i);
        assert rest[i] == looks[i];
      }
    }
    assert WasInvited(rest) ==> WasInvited(looks);
  }

  lemma {:induction false} FirstInvitation(looks: seq<PullLook>, n: nat)
    requires n <= |looks| && exists i :: 0 < i < n && looks[i].word.RetryMetadata?
    ensures WasInvited(looks)
  {
    var i :| 0 < i < n && looks[i].word.RetryMetadata?;
    if exists j :: 0 < j < i && looks[j].word.RetryMetadata? {
      FirstInvitation(looks, i);
    } else {
      assert IsInvited(looks, i);
    }
  }

  lemma WaitingMore(looks: seq<PullLook>)
    requires |looks| > 1
    ensures KeepsWaiting(looks) <==> KeepsWaiting(looks[..|looks| - 1]) && IsCalm(looks, |looks| - 1)
  {
    var last, rest := |looks| - 1, looks[..|looks| - 1];
    InvitedMore(looks);
    forall i: nat | i < last ensures IsCalm(looks, i) <==> IsCalm(rest, i) { assert rest[i] == looks[i]; }
    if KeepsWaiting(looks) {
      forall i: nat | 0 < i < |rest| ensures IsCalm(rest, i) { assert IsCalm(looks, i); }
    }
    if KeepsWaiting(rest) && IsCalm(looks, last) {
      forall i: nat | 0 < i < |looks| ensures IsCalm(looks, i) { assert i < last ==> IsCalm(rest, i); }
    }
  }

  /** One poll of a waiting pull leaves it waiting exactly if it is calm. */
  lemma CalmPoll(op: PullOp, look: PullLook)
    requires op.state.WaitingWriteDone? && !op.uncertain
    ensures var (next, out) := Progress(op, EventOf(look), look.expired, look.sent, look.known);
      var asks := look.word.RetryMetadata? && !op.retried;
      && (next.state.WaitingWriteDone? <==>
          && !look.expired && NoneFailed(look.notes) && !SomeTerminal(look.notes) && !look.word.Refusal?
          && (asks ==> look.sent))
      && !next.state.StartWrite? && next.localFill == op.localFill
      && (next.state.WaitingWriteDone? ==> !next.uncertain && next.retried == (op.retried || asks))
  {
    EventMeans(look);
  }

  lemma {:induction false} WaitingIff(localFill: bool, looks: seq<PullLook>)
    ensures var op := RunPull(localFill, looks).op;
      && (op.state.WaitingWriteDone? <==> KeepsWaiting(looks))
      && (op.state.WaitingWriteDone? ==> !op.uncertain && (op.retried <==> WasInvited(looks)))
      && (op.state.StartWrite? <==> looks == []) && op.localFill == localFill
  {
    if |looks| > 1 {
      var last, rest := |looks| - 1, looks[..|looks| - 1];
      WaitingIff(localFill, rest);
      WaitingMore(looks);
      InvitedMore(looks);
      var before := RunPull(localFill, rest).op;
      if before.state.WaitingWriteDone? {
        CalmPoll(before, looks[last]);
      } else if !before.state.Finished? {
        ProgressShape(before, EventOf(looks[last]), looks[last].expired, looks[last].sent, looks[last].known);
      }
    } else if |looks| == 1 {
      assert looks[..0] == [];
      assert RunPull(localFill, looks[..0]).op == NewPull(localFill);
    }
  }

  /** One poll makes a pull a success exactly if it was waiting and finds the write done. */
  lemma SuccessfulPoll(op: PullOp, look: PullLook)
    requires !op.state.Finished? && !op.success && (op.uncertain <==> op.state.Quarantined?)
    ensures Progress(op, EventOf(look), look.expired, look.sent, look.known).0.success <==>
      op.state.WaitingWriteDone? && SaysDone(look.notes) && (op.localFill ==> !look.expired)
  {
    EventMeans(look);
  }

  lemma PulledMore(localFill: bool, looks: seq<PullLook>)
    requires looks != []
    ensures PullSucceeds(localFill, looks)
      <==> PullSucceeds(localFill, looks[..|looks| - 1]) || PulledAt(localFill, looks, |looks| - 1)
  {
    var rest := looks[..|looks| - 1];
    forall n: nat | n < |rest| ensures PulledAt(localFill, looks, n) <==> PulledAt(localFill, rest, n) {
      assert rest[..n] == looks[..n];
    }
    if PullSucceeds(localFill, looks) {
      var n: nat :| PulledAt(localFill, looks, n);
      assert n < |rest| ==> PulledAt(localFill, rest, n);
    }
    if PullSucceeds(localFill, rest) {
      var n: nat :| PulledAt(localFill, rest, n);
      assert PulledAt(localFill, looks, n);
    }
  }

  /** A pull completes with success exactly if its request was sent in time, nothing was late, refused or
      failed until a poll found the write done, and, if it fills local memory, that poll was
      in time as well. */
  lemma {:induction false} PullSucceedsIff(localFill: bool, looks: seq<PullLook>)
    ensures true in RunPull(localFill, looks).completions <==> PullSucceeds(localFill, looks)
  {
    if looks != [] {
      var last, rest := |looks| - 1, looks[..|looks| - 1];
      PullSucceedsIff(localFill, rest);
      PulledMore(localFill, looks);
      WaitingIff(localFill, rest);
      PullEndsOnce(localFill, rest);
      var before := RunPull(localFill, rest).op;
      if !before.state.Finished? {
        PullStep(before, looks[last]);
        SuccessfulPoll(before, looks[last]);
      }
    }
  }

  lemma PullCompletesWith(localFill: bool, looks: seq<PullLook>)
    requires var op := RunPull(localFill, looks).op; op.state.Finished? || op.state.Quarantined?
    ensures var c := RunPull(localFill, looks).completions; |c| == 1 && (c[0] <==> PullSucceeds(localFill, looks))
  {
    PullEndsOnce(localFill, looks);
    PullSucceedsIff(localFill, looks);
  }

  // -- When a pull is cancelled, and when it is given up on.

  /** The write is over, one way or the other. */
  ghost predicate Ends(look: PullLook) { SomeTerminal(look.notes) || look.word.Refusal? }

  /** The poll at `n` cancels a waiting pull: a notification failed, or the deadline has passed and the
      request is not due to be sent again. */
  ghost predicate CancelledAt(looks: seq<PullLook>, n: nat) {
    && 0 < n < |looks| && KeepsWaiting(looks[..n]) && !Ends(looks[n])
    && (NoneFailed(looks[n].notes) ==> looks[n].expired && !IsInvited(looks, n))
  }

  ghost predicate WasCancelled(looks: seq<PullLook>) { exists n: nat :: CancelledAt(looks, n) }

  /** Cancelled, and since then neither over nor late. */
  ghost predicate StaysCancelled(looks: seq<PullLook>) { exists n: nat :: CancelledSince(looks, n) }

  ghost predicate CancelledSince(looks: seq<PullLook>, n: nat) {
    CancelledAt(looks, n) && forall i :: n < i < |looks| ==> !Ends(looks[i]) && !looks[i].expired
  }

  /** The poll at `m` finds a cancelled pull late again. */
  ghost predicate GivenUpAt(looks: seq<PullLook>, m: nat) {
    0 < m < |looks| && StaysCancelled(looks[..m]) && looks[m].expired && !Ends(looks[m])
  }

  ghost predicate WasGivenUp(looks: seq<PullLook>) { exists m: nat :: GivenUpAt(looks, m) }

  /** After it was given up on, the write turned out to be over. */
  ghost predicate QuiescedAt(looks: seq<PullLook>, q: nat) {
    0 < q < |looks| && WasGivenUp(looks[..q]) && Ends(looks[q])
  }

  ghost predicate WasQuiesced(looks: seq<PullLook>) { exists q: nat :: QuiescedAt(looks, q) }

  lemma CancelledMore(looks: seq<PullLook>)
    requires |looks| > 1
    ensures var last, rest := |looks| - 1, looks[..|looks| - 1];
      && (WasCancelled(looks) <==> WasCancelled(rest) || CancelledAt(looks, last))
      && (StaysCancelled(looks) <==>
          CancelledAt(looks, last) || (StaysCancelled(rest) && !Ends(looks[last]) && !looks[last].expired))
  {
    var last, rest := |looks| - 1, looks[..|looks| - 1];
    InvitedMore(looks);
    forall n: nat | n < last ensures CancelledAt(looks, n) <==> CancelledAt(rest, n) {
      assert rest[..n] == looks[..n] && rest[n] == looks[n];
    }
    forall n: nat | n < last
      ensures CancelledSince(looks, n) <==> CancelledSince(rest, n) && !Ends(looks[last]) && !looks[last].expired
    {
      assert forall i :: 0 <= i < last ==> rest[i] == looks[i];
      if CancelledSince(rest, n) && !Ends(looks[last]) && !looks[last].expired {
        forall i | n < i < |looks| ensures !Ends(looks[i]) && !looks[i].expired {
          assert i < last ==> rest[i] == looks[i];
        }
      }
    }
    assert CancelledSince(looks, last) <==> CancelledAt(looks, last);
    if WasCancelled(looks) {
      var n: nat :| CancelledAt(looks, n);
      assert n < last ==> CancelledAt(rest, n);
    }
    if WasCancelled(rest) {
      var n: nat :| CancelledAt(rest, n);
      assert CancelledAt(looks, n);
    }
    if StaysCancelled(looks) {
      var n: nat :| CancelledSince(looks, n);
      assert n < last ==> CancelledSince(rest, n);
    }
    if StaysCancelled(rest) {
      var n: nat :| CancelledSince(rest, n);
      assert CancelledSince(looks, n) <==> !Ends(looks[last]) && !looks[last].expired;
    }
  }

  lemma GivenUpMore(looks: seq<PullLook>)
    requires |looks| > 1
    ensures WasGivenUp(looks) <==> WasGivenUp(looks[..|looks| - 1]) || GivenUpAt(looks, |looks| - 1)
  {
    var last, rest := |looks| - 1, looks[..|looks| - 1];
    forall n: nat | n < last ensures GivenUpAt(looks, n) <==> GivenUpAt(rest, n) {
      assert rest[..n] == looks[..n] && rest[n] == looks[n];
    }
    if WasGivenUp(looks) {
      var n: nat :| GivenUpAt(looks, n);
      assert n < last ==> GivenUpAt(rest, n);
    }
    if WasGivenUp(rest) {
      var n: nat :| GivenUpAt(rest, n);
      assert GivenUpAt(looks, n);
    }
  }

  lemma QuiescedMore(looks: seq<PullLook>)
    requires |looks| > 1
    ensures WasQuiesced(looks) <==> WasQuiesced(looks[..|looks| - 1]) || QuiescedAt(looks, |looks| - 1)
  {
    var last, rest := |looks| - 1, looks[..|looks| - 1];
    forall n: nat | n < last ensures QuiescedAt(looks, n) <==> QuiescedAt(rest, n) {
      assert rest[..n] == looks[..n] && rest[n] == looks[n];
    }
    if WasQuiesced(looks) {
      var n: nat :| QuiescedAt(looks, n);
      assert n < last ==> QuiescedAt(rest, n);
    }
    if WasQuiesced(rest) {
      var n: nat :| QuiescedAt(rest, n);
      assert QuiescedAt(looks, n);
    }
  }

  /** One poll of a pull, as far as cancelling and giving up go. */
  lemma CancelPoll(op: PullOp, look: PullLook)
    requires !op.state.StartWrite? && !op.state.Finished? && (op.uncertain <==> op.state.Quarantined?)
    ensures var (next, out) := Progress(op, EventOf(look), look.expired, look.sent, look.known);
      var asks := look.word.RetryMetadata? && !op.retried;
      var cancels := op.state.WaitingWriteDone? && !Ends(look) && (NoneFailed(look.notes) ==> look.expired && !asks);
      && (next.state.WaitingTerminal? <==>
          cancels || (op.state.WaitingTerminal? && !Ends(look) && !look.expired))
      && (DiscardFill in out.handoffs <==> cancels && op.localFill)
      && (next.state.Quarantined? <==>
          !Ends(look) && (op.state.Quarantined? || (op.state.WaitingTerminal? && look.expired)))
      && (Quiesced in out.reports <==> op.state.Quarantined? && Ends(look))
      && (Uncertain in out.reports <==> op.state.WaitingTerminal? && look.expired && !Ends(look))
  {
    EventMeans(look);
  }

  /** When a poll probes: on cancelling, on giving up, and in between until a probe could be sent; always if
      it can be sent, and naming whoever the pull takes for its source. */
  lemma ProbePoll(op: PullOp, look: PullLook)
    requires !op.state.StartWrite? && !op.state.Finished? && (op.uncertain <==> op.state.Quarantined?)
    ensures var (next, out) := Progress(op, EventOf(look), look.expired, look.sent, look.known);
      var asks := look.word.RetryMetadata? && !op.retried;
      var cancels := op.state.WaitingWriteDone? && !Ends(look) && (NoneFailed(look.notes) ==> look.expired && !asks);
      var due := cancels || (op.state.WaitingTerminal? && !Ends(look) && (look.expired || !op.probeSent));
      && (out.probe == if due && look.sent then Some(op.sourceIncarnation) else None)
      && (next.state.WaitingTerminal? ==> next.probeSent == if due then look.sent else op.probeSent)
  {
    EventMeans(look);
  }

  lemma CancelledMeans(localFill: bool, looks: seq<PullLook>)
    requires |looks| > 1
    ensures var last, rest := |looks| - 1, looks[..|looks| - 1];
      var op := RunPull(localFill, rest).op;
      var asks := looks[last].word.RetryMetadata? && !op.retried;
      CancelledAt(looks, last) <==>
        && op.state.WaitingWriteDone? && !Ends(looks[last])
        && (NoneFailed(looks[last].notes) ==> looks[last].expired && !asks)
  {
    InvitedMore(looks);
    WaitingIff(localFill, looks[..|looks| - 1]);
  }

  lemma CancelledIsNotWaiting(looks: seq<PullLook>)
    requires WasCancelled(looks)
    ensures !KeepsWaiting(looks)
  {
    var n: nat :| CancelledAt(looks, n);
    assert !IsCalm(looks, n);
  }

  /** In every run: a pull has been cancelled and is neither over nor late since exactly if that is what
      the polls saw, and the fill of one that was cancelled is discarded, once. */
  lemma {:induction false} PullIsCancelledIff(localFill: bool, looks: seq<PullLook>)
    ensures var t := RunPull(localFill, looks);
      && (t.op.state.WaitingTerminal? <==> StaysCancelled(looks))
      && t.discards == (if localFill && WasCancelled(looks) then 1 else 0)
  {
    if |looks| > 1 {
      var last, rest := |looks| - 1, looks[..|looks| - 1];
      PullIsCancelledIff(localFill, rest);
      CancelledMore(looks);
      CancelledMeans(localFill, looks);
      WaitingIff(localFill, rest);
      PullEndsOnce(localFill, rest);
      if WasCancelled(rest) {
        CancelledIsNotWaiting(rest);
      }
      var before := RunPull(localFill, rest).op;
      if !before.state.Finished? {
        CancelPoll(before, looks[last]);
      }
    } else if |looks| == 1 {
      assert looks[..0] == [];
      assert RunPull(localFill, looks[..0]).op == NewPull(localFill);
    }
  }

  /** In every run: a pull is reported uncertain exactly if it was cancelled and was then late a second
      time with nothing heard, and quiesced exactly if word of its end came after that. */
  lemma {:induction false} PullIsGivenUpIff(localFill: bool, looks: seq<PullLook>)
    ensures var reports := RunPull(localFill, looks).reports;
      (Uncertain in reports <==> WasGivenUp(looks)) && (Quiesced in reports <==> WasQuiesced(looks))
  {
    if |looks| > 1 {
      var last, rest := |looks| - 1, looks[..|looks| - 1];
      PullIsGivenUpIff(localFill, rest);
      GivenUpMore(looks);
      QuiescedMore(looks);
      PullIsCancelledIff(localFill, rest);
      WaitingIff(localFill, rest);
      PullEndsOnce(localFill, rest);
      var before := RunPull(localFill, rest).op;
      if !before.state.Finished? {
        CancelPoll(before, looks[last]);
      }
    } else if |looks| == 1 {
      assert looks[..0] == [];
      assert RunPull(localFill, looks[..0]).op == NewPull(localFill);
    }
  }

  /** The requests a run of a pull has sent. */
  function Requests(localFill: bool, looks: seq<PullLook>): nat {
    if looks == [] then 0
    else
      var before, look := RunPull(localFill, looks[..|looks| - 1]), looks[|looks| - 1];
      var sent := Requests(localFill, looks[..|looks| - 1]);
      if before.op.state.Finished? then sent
      else if Progress(before.op, EventOf(look), look.expired, look.sent, look.known).1.start.Some? then sent + 1
      else sent
  }

  /** However many retries are invited, a pull asks at most twice, and the second time only
      because it took up an invitation. */
  lemma {:induction false} PullAsksAtMostTwice(localFill: bool, looks: seq<PullLook>)
    ensures var op := RunPull(localFill, looks).op;
      && Requests(localFill, looks) <= (if op.retried then 2 else 1)
      && (op.state.StartWrite? ==> !op.retried && Requests(localFill, looks) == 0)
  {
    if looks != [] {
      var rest, look := looks[..|looks| - 1], looks[|looks| - 1];
      PullAsksAtMostTwice(localFill, rest);
      var before := RunPull(localFill, rest).op;
      if !before.state.Finished? {
        ProgressShape(before, EventOf(look), look.expired, look.sent, look.known);
      }
    }
  }
}
