/**
 What a pull's success stands for in the write protocol: a source has finished writing and said so;
 and that it comes about when one has.
 */
module WriteOutcomes {
  import opened Prelude
  import opened RemoteOps
  import opened WriteProtocol
  import opened WriteRuns

  /** A source's native write has ended with its notification, or it found nothing to write. */
  predicate IsWritten(step: Step) { step.SourceEmpty? || (step.NativeStop? && step.notified) }

  ghost predicate Wrote(steps: seq<Step>) { exists j :: 0 <= j < |steps| && IsWritten(steps[j]) }

  /** Every good word the pull has, has heard or has acted on was given. */
  ghost predicate Earned(s: Sys, wrote: bool) {
    && (Done(true, true) in s.dones ==> wrote)
    && (s.native.Native? && s.native.terminal && !s.native.cancelled ==> Done(true, true) in s.dones)
    && (s.pull.success ==> wrote && s.pull.state.Finished?)
  }

  lemma PollEarns(s: Sys, expired: bool, sent: bool, known: Option<Incarnation>, wrote: bool)
    requires Typed(s) && !s.pull.state.Finished? && Earned(s, wrote)
    ensures Earned(ApplyPoll(s, expired, sent, known), wrote)
  {
  }

  lemma WordEarns(s: Sys, step: Step, wrote: bool)
    requires Typed(s) && Enabled(s, step) && step.PullNotified? && Earned(s, wrote)
    ensures Earned(Apply(s, step), wrote)
  {
    assert step.done.terminal && step.done.success ==> step.done == Done(true, true);
  }

  lemma OthersEarn(s: Sys, step: Step, wrote: bool)
    requires Typed(s) && Enabled(s, step) && !step.PullPoll? && !step.PullNotified? && Earned(s, wrote)
    ensures Earned(Apply(s, step), wrote || IsWritten(step))
  {
  }

  lemma StepEarns(s: Sys, step: Step, wrote: bool)
    requires Typed(s) && Enabled(s, step) && Earned(s, wrote)
    ensures Earned(Apply(s, step), wrote || IsWritten(step))
  {
    if step.PullPoll? {
      PollEarns(s, step.expired, step.sent, step.known, wrote);
    } else if step.PullNotified? {
      WordEarns(s, step, wrote);
    } else {
      OthersEarn(s, step, wrote);
    }
  }

  lemma {:induction false} RunEarns(s: Sys, steps: seq<Step>, wrote: bool)
    requires CanRun(s, steps) && Earned(s, wrote)
    ensures Earned(After(s, steps), wrote || Wrote(steps))
    decreases |steps|
  {
    if steps != [] {
      StepEarns(s, steps[0], wrote);
      RunEarns(Apply(s, steps[0]), steps[1..], wrote || IsWritten(steps[0]));
      if Wrote(steps[1..]) {
        var j :| 0 <= j < |steps[1..]| && IsWritten(steps[1..][j]);
        assert IsWritten(steps[j + 1]);
      }
      if Wrote(steps) {
        var j :| 0 <= j < |steps| && IsWritten(steps[j]);
        assert j > 0 ==> IsWritten(steps[1..][j - 1]);
      }
    }
  }

  /** In every run, a pull that has succeeded has had its write finished by some source. */
  lemma SuccessIsEarned(localFill: bool, steps: seq<Step>)
    requires CanRun(Initial(localFill), steps) && After(Initial(localFill), steps).pull.success
    ensures Wrote(steps)
  {
    RunEarns(Initial(localFill), steps, false);
  }

  /** Whenever a pull waits, a write for it runs and nothing else has been heard: if the write ends with its
      notification, and that is heard before the deadline, the pull succeeds. */
  lemma WriteSucceeds(s: Sys, i: Incarnation, sent: bool) returns (steps: seq<Step>, t: Sys)
    requires s.pull.state.WaitingWriteDone? && !s.pull.uncertain && s.native.Silent? && s.refused.Silent?
    requires IsPosted(s, i) && s.status[i].write.running
    ensures steps == [NativeStop(i, true)] + ([PullNotified(Done(true, true), true)] + [PullPoll(false, sent, None)])
    ensures Leads(s, steps, t) && t.pull.success && t.pull.state.Finished?
  {
    var stop, heard, poll := NativeStop(i, true), PullNotified(Done(true, true), true), PullPoll(false, sent, None);
    var s1 := Apply(s, stop);
    var s2 := Apply(s1, heard);
    t := Apply(s2, poll);
    LeadsStep(s, stop);
    LeadsStep(s1, heard);
    LeadsStep(s2, poll);
    LeadsJoin(s1, [heard], s2, [poll], t);
    LeadsJoin(s, [stop], s1, [heard] + [poll], t);
    steps := [stop] + ([heard] + [poll]);
  }

  /** Likewise if the source finds nothing to write. */
  lemma NothingToWriteSucceeds(s: Sys, i: Incarnation, sent: bool) returns (steps: seq<Step>, t: Sys)
    requires s.pull.state.WaitingWriteDone? && !s.pull.uncertain && s.native.Silent? && s.refused.Silent?
    requires MaySubmit(s, i)
    ensures steps == [SourceEmpty(i)] + ([PullNotified(Done(true, true), true)] + [PullPoll(false, sent, None)])
    ensures Leads(s, steps, t) && t.pull.success && t.pull.state.Finished?
  {
    var none, heard, poll := SourceEmpty(i), PullNotified(Done(true, true), true), PullPoll(false, sent, None);
    var s1 := Apply(s, none);
    var s2 := Apply(s1, heard);
    t := Apply(s2, poll);
    LeadsStep(s, none);
    LeadsStep(s1, heard);
    LeadsStep(s2, poll);
    LeadsJoin(s1, [heard], s2, [poll], t);
    LeadsJoin(s, [none], s1, [heard] + [poll], t);
    steps := [none] + ([heard] + [poll]);
  }

  /** A source that lets go of a write has told the target how it ended: as a success only if there was nothing
      to write. Only for a transfer that succeeded uncancelled the transport has done so. */
  lemma EveryEndIsTold(s: Sys, step: Step, i: Incarnation)
    requires Typed(s) && Enabled(s, step) && i in s.status && i !in Apply(s, step).status
    ensures var silent := step.SourceFinish? && step.success && !s.status[i].write.cancelling;
      Apply(s, step).dones == s.dones + if silent then {} else {Done(step.SourceEmpty?, true)}
  {
  }

  // -- How a cancelled pull ends.

  /** Whoever answers may end the pull: the process it names, if that has submitted nothing, or anybody who
      knows that process to be dead. */
  predicate CanSettle(s: Sys, i: Incarnation, k: Incarnation, tellDead: bool) {
    && IsLive(s, i) && Some(k) in s.probes && (tellDead ==> k in s.certified)
    && (tellDead || (i == k && (i in s.status ==> !s.status[i].write.Posted?)))
  }

  /** A cancelled pull that names its source, given up on or not, is over once such an answer to its probe is
      heard. */
  lemma ProbeSettles(s: Sys, i: Incarnation, k: Incarnation, tellDead: bool, expired: bool, sent: bool)
    returns (steps: seq<Step>, t: Sys)
    requires (s.pull.state.WaitingTerminal? || s.pull.state.Quarantined?) && s.native.Silent? && s.refused.Silent?
    requires s.pull.sourceIncarnation == Some(k) && CanSettle(s, i, k, tellDead)
    ensures Leads(s, steps, t) && t.pull.state.Finished?
  {
    var ask := DeliverProbe(i, Some(k), tellDead);
    var answer := ProbeAck(i, HandleProbe(i, StatusAt(s, i), Some(k)).terminal, if tellDead then Some(k) else None);
    var heard, poll := PullProbeAck(answer), PullPoll(expired, sent, None);
    var s1 := Apply(s, ask);
    assert answer in s1.probeAcks;
    var s2 := Apply(s1, heard);
    assert s2.refused == Refusal;
    t := Apply(s2, poll);
    LeadsStep(s, ask);
    LeadsStep(s1, heard);
    LeadsStep(s2, poll);
    LeadsJoin(s1, [heard], s2, [poll], t);
    LeadsJoin(s, [ask], s1, [heard] + [poll], t);
    steps := [ask] + ([heard] + [poll]);
  }

  /** A source that cancels a write under way says so, once, and a waiting pull that hears it cancels too. */
  lemma CancelIsPassedOn(s: Sys, i: Incarnation, sent: bool) returns (steps: seq<Step>, t: Sys)
    requires s.pull.state.WaitingWriteDone? && s.native.Silent? && s.refused.Silent?
    requires IsPosted(s, i) && !s.status[i].noticed
    ensures steps == [SourceCancel(i)] + ([PullNotified(Done(false, false), true)] + [PullPoll(false, sent, None)])
    ensures Leads(s, steps, t) && t.pull.state.WaitingTerminal? && i in t.status && t.status[i].noticed
    ensures Apply(Apply(s, SourceCancel(i)), SourceCancel(i)) == Apply(s, SourceCancel(i))
  {
    var cancel, heard := SourceCancel(i), PullNotified(Done(false, false), true);
    var poll := PullPoll(false, sent, None);
    var s1 := Apply(s, cancel);
    var s2 := Apply(s1, heard);
    t := Apply(s2, poll);
    LeadsStep(s, cancel);
    LeadsStep(s1, heard);
    LeadsStep(s2, poll);
    LeadsJoin(s1, [heard], s2, [poll], t);
    LeadsJoin(s, [cancel], s1, [heard] + [poll], t);
    steps := [cancel] + ([heard] + [poll]);
    assert ApplyCancel(s1, i).status == s1.status;
  }

  /** The source a pull names changes only when it sends its request, and by the first acknowledgement it
      hears while it names none. */
  lemma SourceStep(s: Sys, step: Step)
    requires Typed(s) && Enabled(s, step) && !step.PullPoll?
    ensures Apply(s, step).pull.sourceIncarnation ==
      if step.PullMetadataAck? && !s.pull.state.Finished? && s.pull.sourceIncarnation.None? then Some(step.sender)
      else s.pull.sourceIncarnation
  {
  }

  /** From the start: a request leaves, a source takes it and writes, and the pull succeeds. */
  lemma SuccessRunExists(localFill: bool) returns (steps: seq<Step>)
    ensures CanRun(Initial(localFill), steps) && After(Initial(localFill), steps).pull.success
  {
    var s1 := RequestTravels(localFill);
    LeadsStep(Initial(localFill), REQUEST);
    var write, s2 := LateWriteIsPosted(s1, 0);
    assert s2.pull == s1.pull;
    var finish, s3 := WriteSucceeds(s2, 0, true);
    LeadsJoin(s1, write, s2, finish, s3);
    LeadsJoin(Initial(localFill), [REQUEST], s1, write + finish, s3);
    steps := [REQUEST] + (write + finish);
    LeadsThere(Initial(localFill), steps, s3);
  }
}
