/**
 Safety over whole runs of the write protocol, and the exact condition under which a
 cancelled pull is safe.
 */
module WriteRuns {
  import opened Prelude
  import opened RemoteOps
  import opened WriteProtocol
  import opened WriteSafety

  predicate CanRun(s: Sys, steps: seq<Step>)
    decreases |steps|
  {
    steps == [] || (Typed(s) && Enabled(s, steps[0]) && CanRun(Apply(s, steps[0]), steps[1..]))
  }

  function After(s: Sys, steps: seq<Step>): Sys
    requires CanRun(s, steps)
    decreases |steps|
  {
    if steps == [] then s else After(Apply(s, steps[0]), steps[1..])
  }

  /** No process of the run answers for a write it only fenced for a pull that did not name it. */
  predicate Guarded(s: Sys, steps: seq<Step>)
    requires CanRun(s, steps)
    decreases |steps|
  {
    steps == [] || (!ExposedClose(s, steps[0]) && Guarded(Apply(s, steps[0]), steps[1..]))
  }

  lemma {:induction false} RunKeeps(s: Sys, steps: seq<Step>)
    requires Inv(s) && CanRun(s, steps) && Guarded(s, steps)
    ensures Inv(After(s, steps))
    decreases |steps|
  {
    if steps != [] {
      StepKeeps(s, steps[0]);
      RunKeeps(Apply(s, steps[0]), steps[1..]);
    }
  }

  /** In every guarded run a finished pull's memory can no longer be written by anybody. */
  lemma FinishedPullIsNeverWritten(localFill: bool, steps: seq<Step>)
    requires CanRun(Initial(localFill), steps) && Guarded(Initial(localFill), steps)
    ensures Safe(After(Initial(localFill), steps))
  {
    InitialInv(localFill);
    RunKeeps(Initial(localFill), steps);
    InvSafe(After(Initial(localFill), steps));
  }

  // ------------------------------------------------ the exact condition

  ghost predicate AllRunsSafe(s: Sys) {
    forall steps :: CanRun(s, steps) ==> Safe(After(s, steps))
  }

  /** A pull that has cancelled while its request can still lead to a write. */
  ghost predicate CancelledInTime(s: Sys) {
    && Inv(s) && s.pull.state.WaitingTerminal? && s.native.Silent? && s.refused.Silent?
    && s.probes == {s.pull.sourceIncarnation}
    && CanWrite(s)
  }

  /** After cancelling by name, a pull keeps naming the same process and never probes unnamed. */
  lemma NamedStays(s: Sys, step: Step)
    requires Typed(s) && Enabled(s, step)
    requires !BeforeCancel(s) && s.pull.sourceIncarnation.Some? && !Blind(s)
    ensures
      var s' := Apply(s, step);
      !BeforeCancel(s') && s'.pull.sourceIncarnation == s.pull.sourceIncarnation && !Blind(s')
  {
    if step.PullPoll? {
      ProgressShape(s.pull, MergeRefusal(s.native, s.refused), step.expired, step.sent, step.known);
    }
  }

  lemma NamedIsNeverExposed(s: Sys, step: Step)
    requires Inv(s) && s.pull.sourceIncarnation.Some? && !Blind(s)
    ensures !ExposedClose(s, step)
  {}

  lemma {:induction false} NamedRunSafe(s: Sys, steps: seq<Step>)
    requires Inv(s) && CanRun(s, steps)
    requires !BeforeCancel(s) && s.pull.sourceIncarnation.Some? && !Blind(s)
    ensures Safe(After(s, steps))
    decreases |steps|
  {
    if steps == [] {
      InvSafe(s);
    } else {
      NamedIsNeverExposed(s, steps[0]);
      StepKeeps(s, steps[0]);
      NamedStays(s, steps[0]);
      NamedRunSafe(Apply(s, steps[0]), steps[1..]);
    }
  }

  lemma {:induction false} FreshIncarnation(used: set<Incarnation>) returns (i: Incarnation)
    ensures forall j :: j in used ==> j < i
    decreases |used|
  {
    if used == {} {
      i := 0;
    } else {
      var j :| j in used;
      var k := FreshIncarnation(used - {j});
      i := if j < k then k else j + 1;
      assert forall x :: x in used ==> x == j || x in used - {j};
    }
  }

  lemma Prepend(s: Sys, step: Step, rest: seq<Step>)
    requires Typed(s) && Enabled(s, step) && CanRun(Apply(s, step), rest)
    ensures CanRun(s, [step] + rest) && After(s, [step] + rest) == After(Apply(s, step), rest)
  {
    assert ([step] + rest)[1..] == rest;
  }

  /** However a run goes on from `t`, it can be reached from `s` by taking these steps first. */
  ghost predicate Leads(s: Sys, steps: seq<Step>, t: Sys) {
    forall rest :: CanRun(t, rest) ==> CanRun(s, steps + rest) && After(s, steps + rest) == After(t, rest)
  }

  lemma LeadsStep(s: Sys, step: Step)
    requires Typed(s) && Enabled(s, step)
    ensures Leads(s, [step], Apply(s, step))
  {
    var t := Apply(s, step);
    forall rest | CanRun(t, rest)
      ensures CanRun(s, [step] + rest) && After(s, [step] + rest) == After(t, rest)
    {
      Prepend(s, step, rest);
    }
  }

  lemma LeadsJoin(s: Sys, a: seq<Step>, t: Sys, b: seq<Step>, u: Sys)
    requires Leads(s, a, t) && Leads(t, b, u)
    ensures Leads(s, a + b, u)
  {
    forall rest | CanRun(u, rest)
      ensures CanRun(s, (a + b) + rest) && After(s, (a + b) + rest) == After(u, rest)
    {
      assert (a + b) + rest == a + (b + rest);
    }
  }

  lemma LeadsThere(s: Sys, steps: seq<Step>, t: Sys)
    requires Leads(s, steps, t)
    ensures CanRun(s, steps) && After(s, steps) == t
  {
    assert steps + [] == steps;
    assert CanRun(t, []) && After(t, []) == t;
  }

  /** The closing word of a process that only fenced the write ends the pull, if that process
      has a route to the target. */
  lemma FenceCloseEndsPull(s: Sys, q: Incarnation) returns (steps: seq<Step>, t: Sys)
    requires s.pull.state.WaitingTerminal? && s.native.Silent? && s.refused.Silent?
    requires IsRunning(s, q) && q in s.status && s.status[q].write.NoWrite? && q in s.routed
    ensures Leads(s, steps, t) && Typed(t)
    ensures t.pull.state.Finished? && t.life == s.life[q := Stopping] && t.status == s.status && t.starts == s.starts
  {
    var word, poll := PullNotified(Done(false, true), true), PullPoll(false, true, None);
    var s1 := Apply(s, ProcStop(q));
    var s2 := Apply(s1, CloseNotice(q));
    var s3 := Apply(s2, word);
    t := Apply(s3, poll);
    LeadsStep(s, ProcStop(q));
    LeadsStep(s1, CloseNotice(q));
    LeadsStep(s2, word);
    LeadsStep(s3, poll);
    LeadsJoin(s2, [word], s3, [poll], t);
    LeadsJoin(s1, [CloseNotice(q)], s2, [word] + [poll], t);
    LeadsJoin(s, [ProcStop(q)], s1, [CloseNotice(q)] + ([word] + [poll]), t);
    steps := [ProcStop(q)] + ([CloseNotice(q)] + ([word] + [poll]));
  }

  /** A stranger starts, learns the target's route from another of its messages, and is fenced
      by the unnamed probe. */
  lemma StrangerIsFenced(s: Sys, q: Incarnation) returns (steps: seq<Step>, t: Sys)
    requires Typed(s) && q !in s.life && q !in s.status && None in s.probes
    ensures Leads(s, steps, t) && IsRunning(t, q) && q in t.routed
    ensures t.life == s.life[q := Running] && t.status == s.status[q := FENCE] && t.starts == s.starts
    ensures t.pull == s.pull && t.native == s.native && t.refused == s.refused
  {
    var probe := DeliverProbe(q, None, false);
    var s1 := Apply(s, ProcStart(q));
    var s2 := Apply(s1, LearnRoute(q));
    t := Apply(s2, probe);
    LeadsStep(s, ProcStart(q));
    LeadsStep(s1, LearnRoute(q));
    LeadsStep(s2, probe);
    LeadsJoin(s1, [LearnRoute(q)], s2, [probe], t);
    LeadsJoin(s, [ProcStart(q)], s1, [LearnRoute(q)] + [probe], t);
    steps := [ProcStart(q)] + ([LearnRoute(q)] + [probe]);
  }

  /** Its closing word ends the pull: seven steps that touch nothing of the outstanding
      request. */
  lemma UnnamedCancelEndsPull(s: Sys, q: Incarnation) returns (steps: seq<Step>, t: Sys)
    requires s.pull.state.WaitingTerminal? && s.native.Silent? && s.refused.Silent?
    requires q !in s.life && q !in s.status && None in s.probes
    ensures Leads(s, steps, t) && Typed(t) && t.pull.state.Finished?
    ensures t.life == s.life[q := Stopping] && t.status == s.status[q := FENCE] && t.starts == s.starts
  {
    var fence, mid := StrangerIsFenced(s, q);
    var close, end := FenceCloseEndsPull(mid, q);
    LeadsJoin(s, fence, mid, close, end);
    steps, t := fence + close, end;
    assert s.life[q := Running][q := Stopping] == s.life[q := Stopping];
  }

  lemma WriteSurvives(s: Sys, s': Sys, q: Incarnation)
    requires Inv(s) && CanWrite(s) && q !in s.life
    requires s'.life == s.life[q := Stopping] && s'.status == s.status[q := FENCE] && s'.starts == s.starts
    ensures CanWrite(s')
  {
    if i :| i in s.status && Active(s, i) {
      assert i in s'.status && Active(s', i);
    } else {
      var quoted :| Acceptable(s, quoted);
      assert Acceptable(s', quoted);
    }
  }

  /** A pull that cancels while its request can still be acted on is safe in every run if and
      only if it knew its source's incarnation when it cancelled. */
  lemma CancelIsSafeIffSourceIsNamed(s: Sys)
    requires CancelledInTime(s)
    ensures AllRunsSafe(s) <==> s.pull.sourceIncarnation.Some?
  {
    if s.pull.sourceIncarnation.Some? {
      forall steps | CanRun(s, steps)
        ensures Safe(After(s, steps))
      {
        NamedRunSafe(s, steps);
      }
    } else {
      var q := FreshIncarnation(s.life.Keys);
      var steps, t := UnnamedCancelEndsPull(s, q);
      LeadsThere(s, steps, t);
      WriteSurvives(s, t, q);
      assert !Safe(After(s, steps));
    }
  }

  const REQUEST := PullPoll(false, true, None)
  const CANCEL := PullPoll(true, true, None)

  lemma RequestTravels(localFill: bool) returns (s: Sys)
    ensures s == Apply(Initial(localFill), REQUEST)
    ensures Inv(s) && s.place == Travelling(None) && s.probes == {} && s.pull.sourceIncarnation.None?
    ensures s.pull.state.WaitingWriteDone? && s.native.Silent? && s.refused.Silent? && !s.pull.uncertain
    ensures s.life == map[] && s.status == map[]
  {
    InitialInv(localFill);
    s := Apply(Initial(localFill), REQUEST);
    StepKeeps(Initial(localFill), REQUEST);
  }

  /** A request sent to a source not heard of yet, and its deadline, lead to such a pull. */
  lemma DeadlineCancels(s: Sys) returns (s': Sys)
    requires Inv(s) && s.place == Travelling(None) && s.probes == {} && s.pull.sourceIncarnation.None?
    requires s.pull.state.WaitingWriteDone? && s.native.Silent? && s.refused.Silent?
    ensures s' == Apply(s, CANCEL)
    ensures CancelledInTime(s') && s'.pull.sourceIncarnation.None?
  {
    s' := Apply(s, CANCEL);
    StepKeeps(s, CANCEL);
    assert Acceptable(s', None);
  }

  /** A travelling request that quotes nobody is accepted by a process started later, which
      posts its write. */
  lemma LateWriteIsPosted(s: Sys, p: Incarnation) returns (steps: seq<Step>, t: Sys)
    requires Typed(s) && None in s.starts && p !in s.life && p !in s.status
    ensures Leads(s, steps, t) && t.pull == s.pull && IsPosted(t, p) && t.status[p].write.running
    ensures t.native == s.native && t.refused == s.refused
  {
    var start, submit := DeliverStart(p, None, Ready(true, false)), SourceSubmit(p, true, true);
    var s1 := Apply(s, ProcStart(p));
    var s2 := Apply(s1, start);
    assert s2.status[p] == ACCEPTED;
    t := Apply(s2, submit);
    LeadsStep(s, ProcStart(p));
    LeadsStep(s1, start);
    LeadsStep(s2, submit);
    LeadsJoin(s1, [start], s2, [submit], t);
    LeadsJoin(s, [ProcStart(p)], s1, [start] + [submit], t);
    steps := [ProcStart(p)] + ([start] + [submit]);
  }

  /** A request leaves, its deadline passes, and the pull is cancelled unnamed. */
  lemma BlindCancel(localFill: bool) returns (steps: seq<Step>, t: Sys)
    ensures Leads(Initial(localFill), steps, t) && CancelledInTime(t) && t.pull.sourceIncarnation.None?
    ensures t.life == map[] && t.status == map[] && t.starts == multiset{None}
  {
    var s1 := RequestTravels(localFill);
    t := DeadlineCancels(s1);
    LeadsStep(Initial(localFill), REQUEST);
    LeadsStep(s1, CANCEL);
    LeadsJoin(Initial(localFill), [REQUEST], s1, [CANCEL], t);
    steps := [REQUEST] + [CANCEL];
  }

  /** The code as it stands has an unsafe run: a start_write is still travelling when a fenced
      stranger with a route closes; the pull finishes, and then the request is accepted and its
      write posted. */
  lemma UnsafeRunExists(localFill: bool) returns (steps: seq<Step>, writer: Incarnation)
    ensures CanRun(Initial(localFill), steps)
    ensures
      var s := After(Initial(localFill), steps);
      s.pull.state.Finished? && IsPosted(s, writer) && s.status[writer].write.running && !Safe(s)
  {
    var cancel, s1 := BlindCancel(localFill);
    var ends, s2 := UnnamedCancelEndsPull(s1, 0);
    writer := 1;
    var late, s3 := LateWriteIsPosted(s2, writer);
    LeadsJoin(s1, ends, s2, late, s3);
    LeadsJoin(Initial(localFill), cancel, s1, ends + late, s3);
    steps := cancel + (ends + late);
    LeadsThere(Initial(localFill), steps, s3);
    assert writer in s3.status && Active(s3, writer);
  }
}
