/**
 What the steps of the local operations say about a key of an operation, and what its result
 comes to. Which operation a copy serves and who asked for a fill is read off earlier steps.
 */
module LocalVerdicts {
  import opened Prelude
  import opened LocalOps
  import LocalOpsSafety

  /** The result an operation has for a key so far. */
  function At(t: Tables, o: OpId, k: BlockKey): Option<bool> {
    if o in t.ops && k in t.ops[o].results then Some(t.ops[o].results[k]) else None
  }

  predicate InCopy(t: Tables, c: CopyId, o: OpId, k: BlockKey) {
    c in t.copies && t.copies[c].op == o && k in t.copies[c].keys
  }

  predicate IsAsking(t: Tables, o: OpId, k: BlockKey) { o in t.pending && o in t.ops && k in t.ops[o].asked }

  /** What a step says about a key of an operation, given which copies carry it and who asks. */
  function Says(step: Step, o: OpId, k: BlockKey, carried: bool, asking: bool): Option<bool> {
    match step
    case Settle(p, x, ok) => if (p, x) == (o, k) then Some(ok) else None
    case Grant(p, x, h, id) => if (p, x) == (o, k) then Some(true) else None
    case EndFill(x, ok) => if x == k && !ok && asking then Some(false) else None
    case Abandon(c) => if carried then Some(false) else None
    case EndDeposit(c, x, ok) => if x == k && carried then Some(ok) else None
    case EndDelivery(c, x, ok) => if x == k && carried then Some(ok) else None
    case _ => None
  }

  /** Giving up on a copy, and the failure of a fill that was asked for, overrule an earlier result. */
  predicate Overrules(step: Step) { step.Abandon? || step.EndFill? }

  predicate EndsCopy(step: Step) { step.Abandon? || step.EndDeposit? || step.EndDelivery? }

  /** Whether the copy that a step ends, or gives up on, carries the key for the operation. */
  predicate IsCarried(t: Tables, step: Step, o: OpId, k: BlockKey) { EndsCopy(step) && InCopy(t, step.copy, o, k) }

  function SaysNow(t: Tables, step: Step, o: OpId, k: BlockKey): Option<bool> {
    Says(step, o, k, IsCarried(t, step, o, k), IsAsking(t, o, k))
  }

  function Decided(before: Option<bool>, step: Step, says: Option<bool>): Option<bool> {
    if says.None? then before else if before.None? || Overrules(step) then says else before
  }

  // -- What a step does to a result.

  /** Fetches copy nothing, and a delivery's copy that was given up on has failed its keys. */
  ghost predicate FateOk(t: Tables, c: CopyId, k: BlockKey) {
    c in t.copies && k in t.copies[c].keys && t.copies[c].op in t.ops ==>
      && t.ops[t.copies[c].op].kind != Fetch
      && (t.copies[c].deliver && t.copies[c].reported ==> At(t, t.copies[c].op, k) == Some(false))
  }

  ghost predicate Fates(t: Tables) { forall c, k :: FateOk(t, c, k) }

  lemma QuietAtStart(t: Tables, step: Step, o: OpId, k: BlockKey)
    requires Enabled(t, step) && LocalOpsSafety.Starts(step) && !step.Settle? && !step.Grant?
    ensures At(Apply(t, step), o, k) == At(t, o, k)
  {
  }

  lemma QuietLater(t: Tables, step: Step, o: OpId, k: BlockKey)
    requires Enabled(t, step) && !LocalOpsSafety.Starts(step) && !EndsCopy(step) && !step.EndFill?
    ensures At(Apply(t, step), o, k) == At(t, o, k)
  {
  }

  lemma EndFillSays(t: Tables, x: BlockKey, ok: bool, o: OpId, k: BlockKey)
    requires Enabled(t, EndFill(x, ok))
    ensures At(Apply(t, EndFill(x, ok)), o, k) == Decided(At(t, o, k), EndFill(x, ok), SaysNow(t, EndFill(x, ok), o, k))
  {
  }

  lemma AbandonSays(t: Tables, c: CopyId, o: OpId, k: BlockKey)
    requires Enabled(t, Abandon(c))
    ensures At(ApplyAbandon(t, c), o, k) == Decided(At(t, o, k), Abandon(c), SaysNow(t, Abandon(c), o, k))
  {
  }

  lemma EndDepositSays(t: Tables, c: CopyId, x: BlockKey, ok: bool, o: OpId, k: BlockKey)
    requires Enabled(t, EndDeposit(c, x, ok))
    ensures At(ApplyEndDeposit(t, c, x, ok), o, k)
      == Decided(At(t, o, k), EndDeposit(c, x, ok), SaysNow(t, EndDeposit(c, x, ok), o, k))
  {
  }

  lemma EndDeliverySays(t: Tables, c: CopyId, x: BlockKey, ok: bool, o: OpId, k: BlockKey)
    requires Inv(t) && Fates(t) && Enabled(t, EndDelivery(c, x, ok))
    ensures At(ApplyEndDelivery(t, c, x, ok), o, k)
      == Decided(At(t, o, k), EndDelivery(c, x, ok), SaysNow(t, EndDelivery(c, x, ok), o, k))
  {
    var p := t.copies[c].op;
    assert CopyOk(t, c) && OpOk(t, p) && FateOk(t, c, x);
    assert x in t.copies[c].keys && x in t.ops[p].keys;
    var found := t.copies[c].ending.value;
    assert t.copies[c].ending == Some(found) && (found || !found);
  }

  lemma SettleSays(t: Tables, step: Step, o: OpId, k: BlockKey)
    requires Enabled(t, step) && (step.Settle? || step.Grant?)
    ensures At(Apply(t, step), o, k) == Decided(At(t, o, k), step, SaysNow(t, step, o, k))
  {
  }

  lemma QuietStep(t: Tables, step: Step, o: OpId, k: BlockKey)
    requires Enabled(t, step) && !EndsCopy(step) && !step.EndFill? && !step.Settle? && !step.Grant?
    ensures At(Apply(t, step), o, k) == At(t, o, k)
  {
    if LocalOpsSafety.Starts(step) {
      QuietAtStart(t, step, o, k);
    } else {
      QuietLater(t, step, o, k);
    }
  }

  lemma CopySays(t: Tables, step: Step, o: OpId, k: BlockKey)
    requires Inv(t) && Fates(t) && Enabled(t, step) && EndsCopy(step)
    ensures At(Apply(t, step), o, k) == Decided(At(t, o, k), step, SaysNow(t, step, o, k))
  {
    match step
    case Abandon(c) => AbandonSays(t, c, o, k);
    case EndDeposit(c, x, ok) => EndDepositSays(t, c, x, ok, o, k);
    case EndDelivery(c, x, ok) => EndDeliverySays(t, c, x, ok, o, k);
  }

  /** The result after a step is the one before it, unless the step says something and either there was
      none or the step overrules it. */
  lemma StepSays(t: Tables, step: Step, o: OpId, k: BlockKey)
    requires Inv(t) && Fates(t) && Enabled(t, step)
    ensures At(Apply(t, step), o, k) == Decided(At(t, o, k), step, SaysNow(t, step, o, k))
  {
    if EndsCopy(step) {
      CopySays(t, step, o, k);
    } else if step.Settle? || step.Grant? {
      SettleSays(t, step, o, k);
    } else if step.EndFill? {
      EndFillSays(t, step.key, step.ok, o, k);
    } else {
      QuietStep(t, step, o, k);
    }
  }

  // -- What a step does to a copy and to a request for a fill.

  predicate Joins(step: Step, c: CopyId, o: OpId, k: BlockKey) {
    step == StartDeposit(o, k, c) || step == StartDelivery(o, k, c)
  }

  predicate Leaves(step: Step, c: CopyId, k: BlockKey) {
    (step.EndDeposit? || step.EndDelivery?) && (step.copy, step.key) == (c, k)
  }

  predicate TouchesCopies(step: Step) {
    step.StartDeposit? || step.StartDelivery? || step.Abandon? || step.EndDeposit? || step.Arrive? || step.EndDelivery?
  }

  lemma SameCopiesAtStart(t: Tables, step: Step)
    requires Enabled(t, step) && !TouchesCopies(step) && LocalOpsSafety.Starts(step)
    ensures Apply(t, step).copies == t.copies
  {
  }

  lemma SameCopies(t: Tables, step: Step)
    requires Enabled(t, step) && !TouchesCopies(step)
    ensures Apply(t, step).copies == t.copies
  {
    if LocalOpsSafety.Starts(step) {
      SameCopiesAtStart(t, step);
    }
  }

  /** The copies after a step that touches them. */
  function Touched(t: Tables, step: Step): map<CopyId, Copy>
    requires Enabled(t, step) && TouchesCopies(step)
  {
    match step
    case StartDeposit(o, k, c) => Add(t, o, k, c)
    case StartDelivery(o, k, c) => Add(t, o, k, c)
    case EndDeposit(c, k, ok) => Less(t, c, k)
    case EndDelivery(c, k, ok) => Less(t, c, k)
    case Abandon(c) => t.copies[c := t.copies[c].(reported := true)]
    case Arrive(c) => t.copies[c := t.copies[c].(ending := Some(t.copies[c].op in t.pending))]
  }

  lemma TouchedCopies(t: Tables, step: Step)
    requires Enabled(t, step) && TouchesCopies(step)
    ensures Apply(t, step).copies == Touched(t, step)
  {
  }

  lemma TouchedStep(t: Tables, step: Step, c: CopyId, o: OpId, k: BlockKey)
    requires Enabled(t, step) && TouchesCopies(step)
    ensures var copies := Touched(t, step);
      && (c in copies && copies[c].op == o && k in copies[c].keys
          <==> Joins(step, c, o, k) || (InCopy(t, c, o, k) && !Leaves(step, c, k)))
      && (c in copies && copies[c].reported ==> step == Abandon(c) || (c in t.copies && t.copies[c].reported))
  {
  }

  /** A copy carries a key for an operation from the step that adds it to the step that ends it. It is
      marked as given up on by that step only. */
  lemma CopyStep(t: Tables, step: Step, c: CopyId, o: OpId, k: BlockKey)
    requires Enabled(t, step)
    ensures InCopy(Apply(t, step), c, o, k) <==> Joins(step, c, o, k) || (InCopy(t, c, o, k) && !Leaves(step, c, k))
    ensures c in Apply(t, step).copies && Apply(t, step).copies[c].reported ==>
      step == Abandon(c) || (c in t.copies && t.copies[c].reported)
  {
    if TouchesCopies(step) {
      TouchedCopies(t, step);
      TouchedStep(t, step, c, o, k);
    } else {
      SameCopies(t, step);
    }
  }

  lemma KindAtStart(t: Tables, step: Step, o: OpId)
    requires Enabled(t, step) && LocalOpsSafety.Starts(step) && o in t.ops
    ensures o in Apply(t, step).ops && Apply(t, step).ops[o].kind == t.ops[o].kind
  {
  }

  /** An operation stays what it is. */
  lemma KindStays(t: Tables, step: Step, o: OpId)
    requires Enabled(t, step) && o in t.ops
    ensures o in Apply(t, step).ops && Apply(t, step).ops[o].kind == t.ops[o].kind
  {
    if LocalOpsSafety.Starts(step) {
      KindAtStart(t, step, o);
    }
  }

  lemma JoinsOwnKind(t: Tables, step: Step, c: CopyId, o: OpId, k: BlockKey)
    requires Enabled(t, step) && Joins(step, c, o, k)
    ensures o in t.ops && t.ops[o].kind != Fetch && (c in t.copies ==> !t.copies[c].reported)
  {
  }

  lemma FatesKeep(t: Tables, step: Step)
    requires Inv(t) && Fates(t) && Enabled(t, step)
    ensures Fates(Apply(t, step))
  {
    var u := Apply(t, step);
    LocalOpsSafety.StepKeeps(t, step);
    forall c, k ensures FateOk(u, c, k) {
      if c in u.copies && k in u.copies[c].keys && u.copies[c].op in u.ops {
        FateKeeps(t, step, c, k);
      }
    }
  }

  lemma FateKeeps(t: Tables, step: Step, c: CopyId, k: BlockKey)
    requires Inv(t) && Fates(t) && Enabled(t, step) && Inv(Apply(t, step))
    requires c in Apply(t, step).copies && k in Apply(t, step).copies[c].keys
    ensures FateOk(Apply(t, step), c, k)
  {
    var u := Apply(t, step);
    var o := u.copies[c].op;
    CopyStep(t, step, c, o, k);
    assert FateOk(t, c, k);
    if Joins(step, c, o, k) {
      JoinsOwnKind(t, step, c, o, k);
    } else {
      assert CopyOk(t, c);
    }
    KindStays(t, step, o);
    if u.copies[c].reported {
      StepSays(t, step, o, k);
      assert CopyOk(u, c);
    }
  }

  lemma AskAtBegin(t: Tables, step: Step, o: OpId, k: BlockKey)
    requires Inv(t) && Enabled(t, step) && step.Begin?
    ensures IsAsking(Apply(t, step), o, k) <==> IsAsking(t, o, k)
  {
    assert OpOk(t, step.op);
  }

  lemma AskAtStart(t: Tables, step: Step, o: OpId, k: BlockKey)
    requires Enabled(t, step) && LocalOpsSafety.Starts(step) && !step.StartFill? && !step.Begin?
    ensures IsAsking(Apply(t, step), o, k) <==> IsAsking(t, o, k)
  {
  }

  lemma AskLater(t: Tables, step: Step, o: OpId, k: BlockKey)
    requires Enabled(t, step) && !LocalOpsSafety.Starts(step)
    requires !step.EndFill? && !step.ComeBack? && !step.Finish?
    ensures IsAsking(Apply(t, step), o, k) <==> IsAsking(t, o, k)
  {
  }

  predicate AsksBy(step: Step, o: OpId, k: BlockKey) { step.StartFill? && (step.op, step.key) == (o, k) }

  predicate StopsAsking(step: Step, o: OpId, k: BlockKey) { (step.EndFill? && step.key == k) || step == Finish(o) }

  lemma AskComesBack(t: Tables, step: Step, o: OpId, k: BlockKey)
    requires Inv(t) && Enabled(t, step) && step.ComeBack?
    ensures IsAsking(Apply(t, step), o, k) <==> IsAsking(t, o, k)
  {
    assert OpOk(t, step.op);
  }

  lemma AskFinishes(t: Tables, step: Step, o: OpId, k: BlockKey)
    requires Enabled(t, step) && step.Finish?
    ensures IsAsking(Apply(t, step), o, k) <==> IsAsking(t, o, k) && o != step.op
  {
  }

  lemma AskFills(t: Tables, step: Step, o: OpId, k: BlockKey)
    requires Enabled(t, step) && (step.StartFill? || step.EndFill?)
    ensures IsAsking(Apply(t, step), o, k) <==> AsksBy(step, o, k) || (IsAsking(t, o, k) && !StopsAsking(step, o, k))
  {
  }

  lemma AskQuiet(t: Tables, step: Step, o: OpId, k: BlockKey)
    requires Inv(t) && Enabled(t, step)
    requires !step.StartFill? && !step.EndFill? && !step.ComeBack? && !step.Finish?
    ensures IsAsking(Apply(t, step), o, k) <==> IsAsking(t, o, k)
  {
    if step.Begin? {
      AskAtBegin(t, step, o, k);
    } else if LocalOpsSafety.Starts(step) {
      AskAtStart(t, step, o, k);
    } else {
      AskLater(t, step, o, k);
    }
  }

  /** A pending operation asks for a fill from the step that starts it until that fill ends or the
      operation finishes. */
  lemma AskStep(t: Tables, step: Step, o: OpId, k: BlockKey)
    requires Inv(t) && Enabled(t, step)
    ensures IsAsking(Apply(t, step), o, k) <==> AsksBy(step, o, k) || (IsAsking(t, o, k) && !StopsAsking(step, o, k))
  {
    if step.ComeBack? {
      AskComesBack(t, step, o, k);
    } else if step.Finish? {
      AskFinishes(t, step, o, k);
    } else if step.StartFill? || step.EndFill? {
      AskFills(t, step, o, k);
    } else {
      AskQuiet(t, step, o, k);
    }
  }
}
