/**
 The results of local operations, read off the steps of a run alone: no table is looked at.
 */
module LocalOutcomes {
  import opened Prelude
  import opened LocalOps
  import LocalOpsSafety
  import opened LocalVerdicts

  ghost predicate CanRun(steps: seq<Step>)
    decreases |steps|, 0
  {
    steps == [] || var past := steps[..|steps| - 1]; CanRun(past) && Enabled(After(past), steps[|steps| - 1])
  }

  ghost function After(steps: seq<Step>): Tables
    requires CanRun(steps)
    decreases |steps|, 1
  {
    if steps == [] then NOTHING else Apply(After(steps[..|steps| - 1]), steps[|steps| - 1])
  }

  lemma OneMore(past: seq<Step>, step: Step)
    requires CanRun(past) && Enabled(After(past), step)
    ensures CanRun(past + [step]) && After(past + [step]) == Apply(After(past), step)
  {
    var steps := past + [step];
    assert steps[..|steps| - 1] == past && steps[|steps| - 1] == step;
  }

  lemma {:induction false} RunKeeps(steps: seq<Step>)
    requires CanRun(steps)
    ensures Inv(After(steps)) && Fates(After(steps))
  {
    if steps != [] {
      var past := steps[..|steps| - 1];
      RunKeeps(past);
      LocalOpsSafety.StepKeeps(After(past), steps[|steps| - 1]);
      FatesKeep(After(past), steps[|steps| - 1]);
    }
  }

  lemma {:induction false} RunPrefix(steps: seq<Step>, n: nat)
    requires CanRun(steps) && n <= |steps|
    ensures CanRun(steps[..n])
    ensures n < |steps| ==> Enabled(After(steps[..n]), steps[n])
  {
    if n == |steps| {
      assert steps[..n] == steps;
    } else if n < |steps| - 1 {
      RunPrefix(steps[..|steps| - 1], n);
      assert steps[..|steps| - 1][..n] == steps[..n];
    }
  }

  // -- Who carries a key, and who asks for it.

  ghost predicate CarriesSince(past: seq<Step>, c: CopyId, o: OpId, k: BlockKey, j: nat) {
    j < |past| && Joins(past[j], c, o, k) && forall i :: j < i < |past| ==> !Leaves(past[i], c, k)
  }

  /** A copy was given the key by the operation and has not ended since. */
  ghost predicate Carries(past: seq<Step>, c: CopyId, o: OpId, k: BlockKey) {
    exists j: nat :: CarriesSince(past, c, o, k, j)
  }

  ghost predicate AsksSince(past: seq<Step>, o: OpId, k: BlockKey, j: nat) {
    j < |past| && AsksBy(past[j], o, k) && forall i :: j < i < |past| ==> !StopsAsking(past[i], o, k)
  }

  /** The operation started a fill of the key, and neither has ended since. */
  ghost predicate Asks(past: seq<Step>, o: OpId, k: BlockKey) { exists j: nat :: AsksSince(past, o, k, j) }

  lemma CarriesMore(steps: seq<Step>, c: CopyId, o: OpId, k: BlockKey)
    requires steps != []
    ensures var past, step := steps[..|steps| - 1], steps[|steps| - 1];
      Carries(steps, c, o, k) <==> Joins(step, c, o, k) || (Carries(past, c, o, k) && !Leaves(step, c, k))
  {
    var last, past := |steps| - 1, steps[..|steps| - 1];
    assert CarriesSince(steps, c, o, k, last) <==> Joins(steps[last], c, o, k);
    forall j: nat | j < last
      ensures CarriesSince(steps, c, o, k, j) <==> CarriesSince(past, c, o, k, j) && !Leaves(steps[last], c, k)
    {
      assert forall i :: 0 <= i < last ==> past[i] == steps[i];
    }
    if Carries(steps, c, o, k) {
      var j: nat :| CarriesSince(steps, c, o, k, j);
      assert j < last ==> CarriesSince(past, c, o, k, j);
    }
    if Carries(past, c, o, k) {
      var j: nat :| CarriesSince(past, c, o, k, j);
      assert CarriesSince(steps, c, o, k, j) <==> !Leaves(steps[last], c, k);
    }
  }

  lemma AsksMore(steps: seq<Step>, o: OpId, k: BlockKey)
    requires steps != []
    ensures var past, step := steps[..|steps| - 1], steps[|steps| - 1];
      Asks(steps, o, k) <==> AsksBy(step, o, k) || (Asks(past, o, k) && !StopsAsking(step, o, k))
  {
    var last, past := |steps| - 1, steps[..|steps| - 1];
    assert AsksSince(steps, o, k, last) <==> AsksBy(steps[last], o, k);
    forall j: nat | j < last
      ensures AsksSince(steps, o, k, j) <==> AsksSince(past, o, k, j) && !StopsAsking(steps[last], o, k)
    {
      assert forall i :: 0 <= i < last ==> past[i] == steps[i];
    }
    if Asks(steps, o, k) {
      var j: nat :| AsksSince(steps, o, k, j);
      assert j < last ==> AsksSince(past, o, k, j);
    }
    if Asks(past, o, k) {
      var j: nat :| AsksSince(past, o, k, j);
      assert AsksSince(steps, o, k, j) <==> !StopsAsking(steps[last], o, k);
    }
  }

  /** The table of copies says who carries what. */
  lemma {:induction false} CarriesIff(steps: seq<Step>, c: CopyId, o: OpId, k: BlockKey)
    requires CanRun(steps)
    ensures InCopy(After(steps), c, o, k) <==> Carries(steps, c, o, k)
  {
    if steps != [] {
      var past := steps[..|steps| - 1];
      CarriesIff(past, c, o, k);
      CarriesMore(steps, c, o, k);
      CopyStep(After(past), steps[|steps| - 1], c, o, k);
    }
  }

  lemma {:induction false} AsksIff(steps: seq<Step>, o: OpId, k: BlockKey)
    requires CanRun(steps)
    ensures IsAsking(After(steps), o, k) <==> Asks(steps, o, k)
  {
    if steps != [] {
      var past := steps[..|steps| - 1];
      AsksIff(past, o, k);
      AsksMore(steps, o, k);
      RunKeeps(past);
      AskStep(After(past), steps[|steps| - 1], o, k);
    }
  }

  // -- What a run says about a key of an operation.

  /** What the step at `i` says. */
  ghost function SaysAt(steps: seq<Step>, i: nat, o: OpId, k: BlockKey): Option<bool>
    requires i < |steps|
  {
    var past, step := steps[..i], steps[i];
    Says(step, o, k, EndsCopy(step) && Carries(past, step.copy, o, k), Asks(past, o, k))
  }

  lemma SaysAlike(steps: seq<Step>, n: nat, o: OpId, k: BlockKey)
    requires CanRun(steps) && n < |steps|
    ensures CanRun(steps[..n]) && SaysAt(steps, n, o, k) == SaysNow(After(steps[..n]), steps[n], o, k)
  {
    RunPrefix(steps, n);
    AsksIff(steps[..n], o, k);
    if EndsCopy(steps[n]) {
      CarriesIff(steps[..n], steps[n].copy, o, k);
    }
  }

  ghost predicate IsSpoken(steps: seq<Step>, i: nat, o: OpId, k: BlockKey) {
    i < |steps| && SaysAt(steps, i, o, k).Some?
  }

  ghost predicate IsOverruled(steps: seq<Step>, i: nat, o: OpId, k: BlockKey) {
    IsSpoken(steps, i, o, k) && Overrules(steps[i])
  }

  ghost predicate Spoken(steps: seq<Step>, o: OpId, k: BlockKey) { exists i: nat :: IsSpoken(steps, i, o, k) }

  /** The first step to say anything said yes, and none has overruled it. */
  ghost predicate WonAt(steps: seq<Step>, i: nat, o: OpId, k: BlockKey) {
    && i < |steps| && SaysAt(steps, i, o, k) == Some(true)
    && (forall j: nat :: j < i ==> !IsSpoken(steps, j, o, k))
    && (forall j: nat :: i < j < |steps| ==> !IsOverruled(steps, j, o, k))
  }

  ghost predicate Won(steps: seq<Step>, o: OpId, k: BlockKey) { exists i: nat :: WonAt(steps, i, o, k) }

  lemma SpokenBefore(steps: seq<Step>, i: nat, o: OpId, k: BlockKey)
    requires i < |steps| - 1
    ensures IsSpoken(steps, i, o, k) <==> IsSpoken(steps[..|steps| - 1], i, o, k)
    ensures SaysAt(steps, i, o, k) == SaysAt(steps[..|steps| - 1], i, o, k)
    ensures IsOverruled(steps, i, o, k) <==> IsOverruled(steps[..|steps| - 1], i, o, k)
  {
    assert steps[..|steps| - 1][..i] == steps[..i];
  }

  lemma SpokenMore(steps: seq<Step>, o: OpId, k: BlockKey)
    requires steps != []
    ensures Spoken(steps, o, k) <==> Spoken(steps[..|steps| - 1], o, k) || IsSpoken(steps, |steps| - 1, o, k)
  {
    var last, past := |steps| - 1, steps[..|steps| - 1];
    if Spoken(steps, o, k) {
      var i: nat :| IsSpoken(steps, i, o, k);
      if i < last {
        SpokenBefore(steps, i, o, k);
      }
    }
    if Spoken(past, o, k) {
      var i: nat :| IsSpoken(past, i, o, k);
      SpokenBefore(steps, i, o, k);
    }
  }

  lemma WonBefore(steps: seq<Step>, i: nat, o: OpId, k: BlockKey)
    requires i < |steps| - 1
    ensures WonAt(steps, i, o, k) <==> WonAt(steps[..|steps| - 1], i, o, k) && !IsOverruled(steps, |steps| - 1, o, k)
  {
    var last, past := |steps| - 1, steps[..|steps| - 1];
    forall j: nat | j < last
      ensures (IsSpoken(steps, j, o, k) <==> IsSpoken(past, j, o, k))
      ensures (IsOverruled(steps, j, o, k) <==> IsOverruled(past, j, o, k))
    {
      SpokenBefore(steps, j, o, k);
    }
    SpokenBefore(steps, i, o, k);
    if WonAt(past, i, o, k) && !IsOverruled(steps, last, o, k) {
      forall j: nat | i < j < |steps| ensures !IsOverruled(steps, j, o, k) {
        assert j < last ==> !IsOverruled(past, j, o, k);
      }
    }
  }

  lemma WonNow(steps: seq<Step>, o: OpId, k: BlockKey)
    requires steps != []
    ensures WonAt(steps, |steps| - 1, o, k)
      <==> !Spoken(steps[..|steps| - 1], o, k) && SaysAt(steps, |steps| - 1, o, k) == Some(true)
  {
    var last, past := |steps| - 1, steps[..|steps| - 1];
    if Spoken(past, o, k) {
      var j: nat :| IsSpoken(past, j, o, k);
      SpokenBefore(steps, j, o, k);
    } else {
      forall j: nat | j < last ensures !IsSpoken(steps, j, o, k) { SpokenBefore(steps, j, o, k); }
    }
  }

  lemma WonMore(steps: seq<Step>, o: OpId, k: BlockKey)
    requires steps != []
    ensures var last, past := |steps| - 1, steps[..|steps| - 1];
      Won(steps, o, k) <==>
        (Won(past, o, k) && !IsOverruled(steps, last, o, k))
        || (!Spoken(past, o, k) && SaysAt(steps, last, o, k) == Some(true))
  {
    var last, past := |steps| - 1, steps[..|steps| - 1];
    WonNow(steps, o, k);
    if Won(steps, o, k) {
      var i: nat :| WonAt(steps, i, o, k);
      if i < last {
        WonBefore(steps, i, o, k);
      }
    }
    if Won(past, o, k) {
      var i: nat :| WonAt(past, i, o, k);
      WonBefore(steps, i, o, k);
    }
  }

  /** In every run: an operation has a result for a key exactly if some step said something about it, and
      the result is a success exactly if the first step to do so said yes and none has
      overruled it. */
  lemma {:induction false} OutcomeIff(steps: seq<Step>, o: OpId, k: BlockKey)
    requires CanRun(steps)
    ensures At(After(steps), o, k).Some? <==> Spoken(steps, o, k)
    ensures At(After(steps), o, k) == Some(true) <==> Won(steps, o, k)
  {
    if steps != [] {
      var last, past := |steps| - 1, steps[..|steps| - 1];
      OutcomeIff(past, o, k);
      RunKeeps(past);
      SpokenMore(steps, o, k);
      WonMore(steps, o, k);
      SaysAlike(steps, last, o, k);
      StepSays(After(past), steps[last], o, k);
      if Overrules(steps[last]) {
        SaysNo(steps[last], o, k, IsCarried(After(past), steps[last], o, k), IsAsking(After(past), o, k));
      }
    }
  }

  lemma SaysNo(step: Step, o: OpId, k: BlockKey, carried: bool, asking: bool)
    requires Overrules(step)
    ensures Says(step, o, k, carried, asking) != Some(true)
  {
  }

  // -- Deliveries and fetches.

  ghost predicate IsOf(steps: seq<Step>, o: OpId, kind: Kind)
    requires CanRun(steps)
  {
    o in After(steps).ops && After(steps).ops[o].kind == kind
  }

  lemma KindBefore(steps: seq<Step>, o: OpId)
    requires CanRun(steps) && steps != [] && o in After(steps[..|steps| - 1]).ops
    ensures o in After(steps).ops && After(steps).ops[o].kind == After(steps[..|steps| - 1]).ops[o].kind
  {
    KindStays(After(steps[..|steps| - 1]), steps[|steps| - 1], o);
  }

  /** Before an operation begins, nothing is said about it. */
  lemma UnknownIsSilent(t: Tables, step: Step, o: OpId, k: BlockKey)
    requires Inv(t) && Enabled(t, step) && o !in t.ops
    ensures SaysNow(t, step, o, k).None?
  {
    if EndsCopy(step) && step.copy in t.copies {
      assert CopyOk(t, step.copy);
    }
  }

  ghost predicate DeliveredAt(steps: seq<Step>, i: nat, o: OpId, k: BlockKey) {
    && i < |steps| && steps[i].EndDelivery? && steps[i].key == k && steps[i].ok
    && Carries(steps[..i], steps[i].copy, o, k)
  }

  /** A copy that carried the key for the operation came back with success. */
  ghost predicate Delivered(steps: seq<Step>, o: OpId, k: BlockKey) { exists i: nat :: DeliveredAt(steps, i, o, k) }

  lemma DeliveredMore(steps: seq<Step>, o: OpId, k: BlockKey)
    requires steps != []
    ensures Delivered(steps, o, k) <==> Delivered(steps[..|steps| - 1], o, k) || DeliveredAt(steps, |steps| - 1, o, k)
  {
    var last, past := |steps| - 1, steps[..|steps| - 1];
    forall i: nat | i < last ensures DeliveredAt(steps, i, o, k) <==> DeliveredAt(past, i, o, k) {
      assert past[..i] == steps[..i];
    }
    if Delivered(steps, o, k) {
      var i: nat :| DeliveredAt(steps, i, o, k);
      assert i < last ==> DeliveredAt(past, i, o, k);
    }
    if Delivered(past, o, k) {
      var i: nat :| DeliveredAt(past, i, o, k);
      assert DeliveredAt(steps, i, o, k);
    }
  }

  /** What a step says about a delivery: only the success of a copy that was not given up on is a yes,
      and then nothing had been said. */
  lemma DeliverySays(t: Tables, step: Step, o: OpId, k: BlockKey)
    requires Inv(t) && Fates(t) && Enabled(t, step) && IsDelivery(t, o)
    ensures SaysNow(t, step, o, k) == Some(true) <==>
      step.EndDelivery? && step.key == k && step.ok && InCopy(t, step.copy, o, k)
    ensures SaysNow(t, step, o, k).Some? && At(t, o, k) == Some(true) ==> !Overrules(step)
    ensures SaysNow(t, step, o, k) == Some(true) ==> At(t, o, k).None?
  {
    if EndsCopy(step) && InCopy(t, step.copy, o, k) {
      assert CopyOk(t, step.copy) && FateOk(t, step.copy, k);
    }
    assert OpOk(t, o);
  }

  /** In every run: a delivery has succeeded for a key exactly if a copy that carried the key for it came
      back with success. */
  lemma {:induction false} DeliveredIff(steps: seq<Step>, o: OpId, k: BlockKey)
    requires CanRun(steps) && (o in After(steps).ops ==> IsOf(steps, o, Deliver))
    ensures At(After(steps), o, k) == Some(true) <==> Delivered(steps, o, k)
  {
    if steps != [] {
      var last, past := |steps| - 1, steps[..|steps| - 1];
      var t := After(past);
      RunKeeps(past);
      if o in t.ops {
        KindBefore(steps, o);
        DeliverySays(t, steps[last], o, k);
      } else {
        UnknownIsSilent(t, steps[last], o, k);
      }
      DeliveredIff(past, o, k);
      DeliveredMore(steps, o, k);
      StepSays(t, steps[last], o, k);
      if steps[last].EndDelivery? {
        CarriesIff(past, steps[last].copy, o, k);
      }
    }
  }

  /** A fill of the key that the operation asked for has failed. */
  ghost predicate FailedAt(steps: seq<Step>, i: nat, o: OpId, k: BlockKey) {
    i < |steps| && steps[i] == EndFill(k, false) && Asks(steps[..i], o, k)
  }

  ghost predicate GrantedAt(steps: seq<Step>, i: nat, o: OpId, k: BlockKey) {
    i < |steps| && steps[i].Grant? && (steps[i].op, steps[i].key) == (o, k)
  }

  ghost predicate FetchedAt(steps: seq<Step>, i: nat, o: OpId, k: BlockKey) {
    GrantedAt(steps, i, o, k) && forall j: nat :: i < j < |steps| ==> !FailedAt(steps, j, o, k)
  }

  /** The operation was granted the key, and no fill it asked for failed after that. */
  ghost predicate Fetched(steps: seq<Step>, o: OpId, k: BlockKey) { exists i: nat :: FetchedAt(steps, i, o, k) }

  lemma FetchedMore(steps: seq<Step>, o: OpId, k: BlockKey)
    requires steps != []
    ensures var last, past := |steps| - 1, steps[..|steps| - 1];
      Fetched(steps, o, k) <==>
        GrantedAt(steps, last, o, k) || (Fetched(past, o, k) && !FailedAt(steps, last, o, k))
  {
    var last, past := |steps| - 1, steps[..|steps| - 1];
    forall j: nat | j < last ensures FailedAt(steps, j, o, k) <==> FailedAt(past, j, o, k) {
      assert past[..j] == steps[..j];
    }
    forall i: nat | i < last
      ensures FetchedAt(steps, i, o, k) <==> FetchedAt(past, i, o, k) && !FailedAt(steps, last, o, k)
    {
      if FetchedAt(past, i, o, k) && !FailedAt(steps, last, o, k) {
        forall j: nat | i < j < |steps| ensures !FailedAt(steps, j, o, k) {
          assert j < last ==> !FailedAt(past, j, o, k);
        }
      }
    }
    assert FetchedAt(steps, last, o, k) <==> GrantedAt(steps, last, o, k);
    if Fetched(steps, o, k) {
      var i: nat :| FetchedAt(steps, i, o, k);
      assert i < last ==> FetchedAt(past, i, o, k);
    }
    if Fetched(past, o, k) {
      var i: nat :| FetchedAt(past, i, o, k);
      assert FetchedAt(steps, i, o, k) <==> !FailedAt(steps, last, o, k);
    }
  }

  /** What a step says about a fetch: only a grant is a yes, and then nothing had been said. */
  lemma FetchSays(t: Tables, step: Step, o: OpId, k: BlockKey)
    requires Inv(t) && Fates(t) && Enabled(t, step) && o in t.ops && t.ops[o].kind == Fetch
    ensures SaysNow(t, step, o, k) == Some(true) <==> step.Grant? && (step.op, step.key) == (o, k)
    ensures SaysNow(t, step, o, k) == Some(true) ==> At(t, o, k).None?
    ensures SaysNow(t, step, o, k).Some? && Overrules(step) <==> step == EndFill(k, false) && IsAsking(t, o, k)
  {
    assert EndsCopy(step) ==> FateOk(t, step.copy, k);
  }

  /** In every run: a fetch has succeeded for a key exactly if it was granted the key and no fill it had
      asked for failed after that. */
  lemma {:induction false} FetchedIff(steps: seq<Step>, o: OpId, k: BlockKey)
    requires CanRun(steps) && (o in After(steps).ops ==> IsOf(steps, o, Fetch))
    ensures At(After(steps), o, k) == Some(true) <==> Fetched(steps, o, k)
  {
    if steps != [] {
      var last, past := |steps| - 1, steps[..|steps| - 1];
      var t := After(past);
      RunKeeps(past);
      if o in t.ops {
        KindBefore(steps, o);
        FetchSays(t, steps[last], o, k);
      } else {
        UnknownIsSilent(t, steps[last], o, k);
      }
      FetchedIff(past, o, k);
      FetchedMore(steps, o, k);
      StepSays(t, steps[last], o, k);
      AsksIff(past, o, k);
    }
  }

  // -- What operations complete with.

  predicate Completes(step: Step, o: OpId) { step == Complete(o) || (step.Begin? && step.op == o && step.keys == {}) }

  lemma DoneAtStart(t: Tables, step: Step)
    requires Enabled(t, step) && LocalOpsSafety.Starts(step)
    ensures Apply(t, step).done ==
      if step.Begin? && step.keys == {} then t.done + [Completion(step.op, map[])] else t.done
  {
  }

  lemma DoneLater(t: Tables, step: Step)
    requires Enabled(t, step) && !LocalOpsSafety.Starts(step)
    ensures Apply(t, step).done ==
      if step.Complete? then t.done + [Completion(step.op, t.ops[step.op].results)] else t.done
  {
  }

  /** A completion is there from the step that made it, with the results the operation then had. */
  lemma DoneStep(t: Tables, step: Step, i: nat)
    requires Inv(t) && Enabled(t, step) && i < |Apply(t, step).done|
    ensures i < |t.done| ==> Apply(t, step).done[i] == t.done[i]
    ensures i >= |t.done| ==>
      var d := Apply(t, step).done[i];
      Completes(step, d.op) && forall k :: k in d.results ==> At(t, d.op, k) == Some(d.results[k])
  {
    if LocalOpsSafety.Starts(step) {
      DoneAtStart(t, step);
    } else {
      DoneLater(t, step);
    }
  }

  ghost predicate CompletedAt(steps: seq<Step>, n: nat, d: Completion) {
    && n < |steps| && Completes(steps[n], d.op)
    && forall k :: k in d.results ==> (d.results[k] <==> Won(steps[..n], d.op, k))
  }

  /** In every run: whatever an operation completes with, for each of its keys it is a success exactly if
      the first step to say anything about it said yes and none had overruled it by then. */
  lemma {:induction false} CompletionsFollow(steps: seq<Step>, i: nat)
    requires CanRun(steps) && i < |After(steps).done|
    ensures exists n: nat :: CompletedAt(steps, n, After(steps).done[i])
  {
    if steps != [] {
      var last, past := |steps| - 1, steps[..|steps| - 1];
      var d := After(steps).done[i];
      RunKeeps(past);
      DoneStep(After(past), steps[last], i);
      if i < |After(past).done| {
        CompletionsFollow(past, i);
        var n: nat :| CompletedAt(past, n, d);
        assert past[..n] == steps[..n];
        assert CompletedAt(steps, n, d);
      } else {
        forall k | k in d.results ensures d.results[k] <==> Won(past, d.op, k) { OutcomeIff(past, d.op, k); }
        assert CompletedAt(steps, last, d);
      }
    }
  }

  lemma DoneIsOver(t: Tables, i: nat)
    requires Inv(t) && i < |t.done|
    ensures var o := t.done[i].op;
      o in t.ops && o !in t.pending && t.ops[o].results.Keys == t.ops[o].keys == t.done[i].results.Keys
  {
    var o := t.done[i].op;
    assert DoneOk(t, o) && OpOk(t, o);
  }

  /** Nothing more is delivered for a completed delivery. */
  lemma DeliveryIsOver(t: Tables, step: Step, o: OpId, k: BlockKey)
    requires Inv(t) && Enabled(t, step) && IsDelivery(t, o) && o !in t.pending
    ensures !(step.EndDelivery? && step.key == k && step.ok && InCopy(t, step.copy, o, k))
  {
    if step.EndDelivery? && InCopy(t, step.copy, o, k) {
      assert CopyOk(t, step.copy) && OpOk(t, o);
    }
  }

  /** In every run: a delivery completes with success for exactly those of its keys that a copy carried
      for it and came back with. */
  lemma {:induction false} DeliveriesFollow(steps: seq<Step>, i: nat, k: BlockKey)
    requires CanRun(steps) && i < |After(steps).done| && IsOf(steps, After(steps).done[i].op, Deliver)
    requires k in After(steps).done[i].results
    ensures After(steps).done[i].results[k] <==> Delivered(steps, After(steps).done[i].op, k)
  {
    if steps != [] {
      var last, past := |steps| - 1, steps[..|steps| - 1];
      var d := After(steps).done[i];
      RunKeeps(past);
      DoneStep(After(past), steps[last], i);
      DeliveredMore(steps, d.op, k);
      if i < |After(past).done| {
        DoneIsOver(After(past), i);
        KindBefore(steps, d.op);
        DeliveriesFollow(past, i, k);
        DeliveryIsOver(After(past), steps[last], d.op, k);
        if steps[last].EndDelivery? {
          CarriesIff(past, steps[last].copy, d.op, k);
        }
      } else {
        if d.op in After(past).ops {
          KindBefore(steps, d.op);
        }
        DeliveredIff(past, d.op, k);
      }
    }
  }

  /** In every run: a fetch completes with success for exactly those of its keys that it was granted and
      for which no fill it asked for failed after that. */
  lemma {:induction false} FetchesFollow(steps: seq<Step>, i: nat, k: BlockKey)
    requires CanRun(steps) && i < |After(steps).done| && IsOf(steps, After(steps).done[i].op, Fetch)
    requires k in After(steps).done[i].results
    ensures After(steps).done[i].results[k] <==> Fetched(steps, After(steps).done[i].op, k)
  {
    if steps != [] {
      var last, past := |steps| - 1, steps[..|steps| - 1];
      var d := After(steps).done[i];
      RunKeeps(past);
      DoneStep(After(past), steps[last], i);
      FetchedMore(steps, d.op, k);
      AsksIff(past, d.op, k);
      if i < |After(past).done| {
        DoneIsOver(After(past), i);
        KindBefore(steps, d.op);
        FetchesFollow(past, i, k);
      } else {
        if d.op in After(past).ops {
          KindBefore(steps, d.op);
        }
        FetchedIff(past, d.op, k);
      }
    }
  }
}
