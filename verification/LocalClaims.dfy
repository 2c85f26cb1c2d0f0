/** Each step of the local operations adds one claim, gives one up, or moves none. */
module LocalClaims {
  import opened Prelude
  import opened LocalOps
  import opened LocalOpsSafety

  ghost predicate SameHolders(t: Tables, u: Tables) {
    forall h, k :: Holds(u, h, k) <==> Holds(t, h, k)
  }

  /** From `t` to `u` there is one claim more, by `h` on `key`. */
  ghost predicate Gains(t: Tables, u: Tables, h: Holder, key: BlockKey) {
    !Holds(t, h, key) && forall x, k :: Holds(u, x, k) <==> Holds(t, x, k) || (x == h && k == key)
  }

  lemma SameCount(t: Tables, u: Tables, k: BlockKey)
    requires SameHolders(t, u)
    ensures HoldersOf(u, k) == HoldersOf(t, k)
  {
    forall h ensures h in HoldersOf(u, k) <==> h in HoldersOf(t, k) {
      assert Holds(u, h, k) <==> Holds(t, h, k);
    }
  }

  lemma GainCount(t: Tables, u: Tables, h: Holder, key: BlockKey, k: BlockKey)
    requires Gains(t, u, h, key)
    ensures |HoldersOf(u, k)| == |HoldersOf(t, k)| + if k == key then 1 else 0
  {
    forall x ensures x in HoldersOf(u, k) <==> x in HoldersOf(t, k) || (x == h && k == key) {
      assert Holds(u, x, k) <==> Holds(t, x, k) || (x == h && k == key);
    }
    if k == key {
      assert HoldersOf(u, k) == HoldersOf(t, k) + {h};
    } else {
      assert HoldersOf(u, k) == HoldersOf(t, k);
    }
  }

  /** Nothing that holds a claim has changed except, possibly, one operation. */
  ghost predicate SameBut(t: Tables, u: Tables, o: OpId) {
    && u.public == t.public && u.sources == t.sources && u.fills == t.fills
    && (forall c, k :: CopyHolds(u, c, k) <==> CopyHolds(t, c, k))
    && (forall x, k :: x != o ==> (OpHolds(u, x, k) <==> OpHolds(t, x, k)))
  }

  lemma SameIfOp(t: Tables, u: Tables, o: OpId)
    requires SameBut(t, u, o) && forall k :: OpHolds(u, o, k) <==> OpHolds(t, o, k)
    ensures SameHolders(t, u)
  {
    forall h, k ensures Holds(u, h, k) <==> Holds(t, h, k) {
      match h
      case ByOp(x) => assert x != o ==> (OpHolds(u, x, k) <==> OpHolds(t, x, k));
      case ByCopy(c) => assert CopyHolds(u, c, k) <==> CopyHolds(t, c, k);
      case _ =>
    }
  }

  lemma GainsIfOp(t: Tables, u: Tables, o: OpId, key: BlockKey)
    requires SameBut(t, u, o) && !OpHolds(t, o, key) && forall k :: OpHolds(u, o, k) <==> OpHolds(t, o, k) || k == key
    ensures Gains(t, u, ByOp(o), key)
  {
    forall h, k ensures Holds(u, h, k) <==> Holds(t, h, k) || (h == ByOp(o) && k == key) {
      match h
      case ByOp(x) => assert x != o ==> (OpHolds(u, x, k) <==> OpHolds(t, x, k));
      case ByCopy(c) => assert CopyHolds(u, c, k) <==> CopyHolds(t, c, k);
      case _ =>
    }
  }

  /** The copies are the same, and the other operations too. */
  lemma UpdatedIsSameBut(t: Tables, u: Tables, o: OpId)
    requires u.public == t.public && u.sources == t.sources && u.fills == t.fills && u.copies == t.copies
    requires o in u.ops && u.ops == t.ops[o := u.ops[o]] && (o in t.ops ==> u.ops[o].kind == t.ops[o].kind)
    requires o !in t.ops ==> forall c :: c in t.copies ==> t.copies[c].op != o
    requires forall x :: x != o ==>
      (x in u.pending <==> x in t.pending) && (x in u.leaving <==> x in t.leaving)
        && (x in t.leaving ==> u.leaving[x] == t.leaving[x])
    ensures SameBut(t, u, o)
  {
    forall x, k | x != o ensures OpHolds(u, x, k) <==> OpHolds(t, x, k) { SameFlight(t, u, x, k); }
  }

  lemma BeginHolds(t: Tables, o: OpId, kind: Kind, keys: set<BlockKey>)
    requires Inv(t) && Enabled(t, Begin(o, kind, keys))
    ensures SameHolders(t, Apply(t, Begin(o, kind, keys)))
  {
    var u := Apply(t, Begin(o, kind, keys));
    assert OpOk(t, o);
    forall c | c in t.copies ensures t.copies[c].op != o { assert CopyOk(t, c); }
    UpdatedIsSameBut(t, u, o);
    SameIfOp(t, u, o);
  }

  /** Results, and what an operation has asked for, are no claims. */
  lemma UpdateHolds(t: Tables, o: OpId, more: Op)
    requires o in t.ops && more.kind == t.ops[o].kind && more.claimed == t.ops[o].claimed
    ensures SameHolders(t, Update(t, o, more))
  {
    var u := Update(t, o, more);
    UpdatedIsSameBut(t, u, o);
    forall k ensures OpHolds(u, o, k) <==> OpHolds(t, o, k) { SameFlight(t, u, o, k); }
    SameIfOp(t, u, o);
  }

  lemma GrantHolds(t: Tables, o: OpId, k: BlockKey, h: nat, id: nat)
    requires Inv(t) && Enabled(t, Grant(o, k, h, id))
    ensures Gains(t, Apply(t, Grant(o, k, h, id)), ByHandle(h), k)
  {
    var more := t.ops[o].(results := t.ops[o].results[k := true]);
    UpdateHolds(t, o, more);
    var s, u := Update(t, o, more), Apply(t, Grant(o, k, h, id));
    forall x, y ensures Holds(u, x, y) <==> Holds(t, x, y) || (x == ByHandle(h) && y == k) {
      assert Holds(s, x, y) <==> Holds(t, x, y);
      EntryHolds(s, u, x, y);
    }
  }

  /** A change to the handles, the sources or the fills alone. */
  lemma EntryHolds(s: Tables, u: Tables, h: Holder, k: BlockKey)
    requires u == s.(public := u.public, sources := u.sources, fills := u.fills)
    ensures h.ByOp? || h.ByCopy? ==> (Holds(u, h, k) <==> Holds(s, h, k))
  {
    match h
    case ByOp(o) => SameFlight(s, u, o, k);
    case _ =>
  }

  lemma AwaitHolds(t: Tables, o: OpId, k: BlockKey)
    requires Inv(t) && Enabled(t, Await(o, k))
    ensures Gains(t, Apply(t, Await(o, k)), ByOp(o), k)
  {
    var u := Apply(t, Await(o, k));
    assert OpOk(t, o);
    UpdatedIsSameBut(t, u, o);
    GainsIfOp(t, u, o, k);
  }

  lemma StartFillHolds(t: Tables, o: OpId, k: BlockKey, id: nat)
    requires Inv(t) && Enabled(t, StartFill(o, k, id))
    ensures Gains(t, Apply(t, StartFill(o, k, id)), ByFill, k)
  {
    var more := t.ops[o].(asked := t.ops[o].asked + {k});
    UpdateHolds(t, o, more);
    var s, u := Update(t, o, more), Apply(t, StartFill(o, k, id));
    forall x, y ensures Holds(u, x, y) <==> Holds(t, x, y) || (x == ByFill && y == k) {
      assert Holds(s, x, y) <==> Holds(t, x, y);
      EntryHolds(s, u, x, y);
    }
  }

  lemma AddFlight(t: Tables, u: Tables, o: OpId, k: BlockKey, c: CopyId, x: OpId, y: BlockKey)
    requires CanJoin(t, o, c) && u.copies == Add(t, o, k, c)
    ensures InFlight(u, x, y) <==> InFlight(t, x, y) || (x == o && y == k)
  {
    if InFlight(t, x, y) {
      var d :| d in t.copies && t.copies[d].op == x && y in t.copies[d].keys;
      assert d in u.copies && u.copies[d].op == x && y in u.copies[d].keys;
    }
    if InFlight(u, x, y) {
      var d :| d in u.copies && u.copies[d].op == x && y in u.copies[d].keys;
      assert (d in t.copies && t.copies[d].op == x && y in t.copies[d].keys) || (x == o && y == k);
    }
    assert c in u.copies && u.copies[c].op == o && k in u.copies[c].keys;
  }

  lemma StartDepositHolds(t: Tables, o: OpId, k: BlockKey, c: CopyId)
    requires Inv(t) && Enabled(t, StartDeposit(o, k, c))
    ensures Gains(t, Apply(t, StartDeposit(o, k, c)), ByCopy(c), k)
  {
    var u := Apply(t, StartDeposit(o, k, c));
    assert CopyOk(t, c);
    forall x, y ensures Holds(u, x, y) <==> Holds(t, x, y) || (x == ByCopy(c) && y == k) {
      match x
      case ByOp(p) => AddFlight(t, u, o, k, c, p, y);
      case ByCopy(d) => assert d in t.copies ==> CopyOk(t, d);
      case _ =>
    }
  }

  lemma StartDeliveryHolds(t: Tables, o: OpId, k: BlockKey, c: CopyId)
    requires Inv(t) && Enabled(t, StartDelivery(o, k, c))
    ensures SameHolders(t, Apply(t, StartDelivery(o, k, c)))
  {
    var u := Apply(t, StartDelivery(o, k, c));
    forall x, y ensures Holds(u, x, y) <==> Holds(t, x, y) {
      match x
      case ByOp(p) => AddFlight(t, u, o, k, c, p, y);
      case ByCopy(d) => assert d in t.copies ==> CopyOk(t, d);
      case _ =>
    }
  }

  lemma EndFillHolds(t: Tables, k: BlockKey, ok: bool)
    requires Inv(t) && Enabled(t, EndFill(k, ok))
    ensures Gains(Apply(t, EndFill(k, ok)), t, ByFill, k)
  {
    var u := Apply(t, EndFill(k, ok));
    forall x, y ensures Holds(t, x, y) <==> Holds(u, x, y) || (x == ByFill && y == k) {
      match x
      case ByOp(o) => SameFlight(t, u, o, y);
      case _ =>
    }
  }

  lemma FlagHolds(t: Tables, u: Tables, c: CopyId)
    requires c in t.copies && t.copies[c].op in t.ops && u.copies.Keys == t.copies.Keys && u.pending == t.pending
    requires u.leaving == t.leaving
    requires forall d :: d in t.copies ==>
      u.copies[d] == t.copies[d].(reported := u.copies[d].reported, ending := u.copies[d].ending)
    requires u.public == t.public && u.sources == t.sources && u.fills == t.fills && u.ops.Keys == t.ops.Keys
    requires forall o :: o in t.ops ==> u.ops[o].kind == t.ops[o].kind && u.ops[o].claimed == t.ops[o].claimed
    ensures SameHolders(t, u)
  {
    forall x, y ensures Holds(u, x, y) <==> Holds(t, x, y) {
      match x
      case ByOp(o) => FlagFlight(t, u, c, o, y);
      case _ =>
    }
  }

  lemma EndDepositHolds(t: Tables, c: CopyId, k: BlockKey, ok: bool)
    requires Inv(t) && Enabled(t, EndDeposit(c, k, ok))
    ensures Gains(ApplyEndDeposit(t, c, k, ok), t, ByCopy(c), k)
  {
    var u := ApplyEndDeposit(t, c, k, ok);
    assert CopyOk(t, c);
    forall x, y ensures Holds(t, x, y) <==> Holds(u, x, y) || (x == ByCopy(c) && y == k) {
      match x
      case ByOp(o) => LessFlight(t, u, c, k, o, y);
      case ByCopy(d) =>
      case _ =>
    }
  }

  lemma EndForOpHolds(t: Tables, c: CopyId, k: BlockKey, ok: bool)
    requires Inv(t) && Enabled(t, EndDelivery(c, k, ok)) && t.copies[c].ending == Some(true)
    ensures Gains(EndForOp(t, c, k, ok), t, ByOp(t.copies[c].op), k)
  {
    var u, o := EndForOp(t, c, k, ok), t.copies[c].op;
    assert CopyOk(t, c) && OpOk(t, o);
    forall x, y ensures Holds(t, x, y) <==> Holds(u, x, y) || (x == ByOp(o) && y == k) {
      match x
      case ByOp(p) => LessFlight(t, u, c, k, p, y);
      case ByCopy(d) =>
      case _ =>
    }
  }

  lemma EndAloneHolds(t: Tables, c: CopyId, k: BlockKey)
    requires Inv(t) && c in t.copies && k in t.copies[c].keys && t.copies[c].ending == Some(false)
    ensures Gains(t.(copies := Less(t, c, k)), t, ByOp(t.copies[c].op), k)
  {
    var u, o := t.(copies := Less(t, c, k)), t.copies[c].op;
    assert CopyOk(t, c) && OpOk(t, o);
    assert InFlight(t, o, k);
    forall x, y ensures Holds(t, x, y) <==> Holds(u, x, y) || (x == ByOp(o) && y == k) {
      match x
      case ByOp(p) => LessFlight(t, u, c, k, p, y);
      case ByCopy(d) =>
      case _ =>
    }
    LessFlight(t, u, c, k, o, k);
  }

  /** Leaving the pending table moves claims, but none is lost: what the operation waited for it
      gives back, and what a delivery still copies stays claimed until the copy has ended. */
  lemma LeaveHolds(t: Tables, o: OpId, back: set<BlockKey>)
    requires Inv(t) && o in t.pending && o in t.ops
    requires if IsDelivery(t, o) then back == t.ops[o].claimed - t.ops[o].active else back == t.ops[o].claimed
    ensures SameHolders(t, Left(t, o, back))
  {
    var u := Left(t, o, back);
    assert OpOk(t, o);
    UpdatedIsSameBut(t, u, o);
    forall k ensures OpHolds(u, o, k) <==> OpHolds(t, o, k) {
      assert ActiveOk(t, o, k);
      SameFlight(t, u, o, k);
      if InFlight(t, o, k) {
        var c :| c in t.copies && t.copies[c].op == o && k in t.copies[c].keys;
        assert CopyOk(t, c);
      }
    }
    SameIfOp(t, u, o);
  }

  lemma ComeBackHolds(t: Tables, o: OpId)
    requires Inv(t) && Enabled(t, ComeBack(o))
    ensures SameHolders(t, ApplyComeBack(t, o))
  {
    var s := t.(owed := t.owed - multiset{o});
    forall x, y ensures Holds(s, x, y) <==> Holds(t, x, y) {
      match x
      case ByOp(p) => SameFlight(t, s, p, y);
      case _ =>
    }
    if t.ops[o].results.Keys == t.ops[o].keys {
      forall x | x in s.owed ensures IsDelivery(t, x) { assert OpOk(t, x); }
      OwedKeeps(t, s.owed);
      assert OpOk(t, o);
      LeaveHolds(s, o, t.ops[o].claimed - t.ops[o].active);
    }
  }

  lemma GiveBackHolds(t: Tables, o: OpId, k: BlockKey)
    requires Inv(t) && Enabled(t, GiveBack(o, k))
    ensures Gains(Apply(t, GiveBack(o, k)), t, ByOp(o), k)
  {
    var u := Apply(t, GiveBack(o, k));
    assert OpOk(t, o);
    UpdatedIsSameBut(t, u, o);
    forall y ensures OpHolds(t, o, y) <==> OpHolds(u, o, y) || y == k { SameFlight(t, u, o, y); }
    assert !OpHolds(u, o, k) by {
      if InFlight(u, o, k) {
        var c :| c in t.copies && t.copies[c].op == o && k in t.copies[c].keys;
        assert CopyOk(t, c);
      }
    }
    GainsIfOp(u, t, o, k);
  }

  lemma CompleteHolds(t: Tables, o: OpId)
    requires Inv(t) && Enabled(t, Complete(o))
    ensures SameHolders(t, Apply(t, Complete(o)))
  {
    var u := Apply(t, Complete(o));
    UpdatedIsSameBut(t, u, o);
    forall k ensures OpHolds(u, o, k) <==> OpHolds(t, o, k) { SameFlight(t, u, o, k); }
    SameIfOp(t, u, o);
  }

  lemma EntryStepHolds(t: Tables, step: Step)
    requires Enabled(t, step) && (step.Release? || step.TakeSource? || step.DropSource?)
    ensures match step
      case Release(h) => Gains(Apply(t, step), t, ByHandle(h), t.public[h].key)
      case TakeSource(o, k, id) => Gains(t, Apply(t, step), BySource(o), k)
      case DropSource(o, k) => Gains(Apply(t, step), t, BySource(o), k)
      case _ => true
  {
    var u := Apply(t, step);
    forall x: Holder, y ensures (x.ByOp? || x.ByCopy?) ==> (Holds(u, x, y) <==> Holds(t, x, y)) {
      EntryHolds(t, u, x, y);
    }
  }

  lemma MarkHolds(t: Tables, step: Step)
    requires Inv(t) && Enabled(t, step) && (step.Settle? || step.Abandon? || step.Arrive? || step.Collect?)
    ensures SameHolders(t, Apply(t, step))
  {
    var u := Apply(t, step);
    match step
    case Settle(o, k, ok) => UpdateHolds(t, o, u.ops[o]);
    case Abandon(c) => FlagHolds(t, u, c);
    case Arrive(c) =>
      assert CopyOk(t, c);
      FlagHolds(t, u, c);
    case Collect(o) => OwedHolds(t, u.owed);
  }

  lemma OwedHolds(t: Tables, owed: multiset<OpId>)
    ensures SameHolders(t, t.(owed := owed))
  {
    var u := t.(owed := owed);
    forall x, y ensures Holds(u, x, y) <==> Holds(t, x, y) {
      match x
      case ByOp(o) => SameFlight(t, u, o, y);
      case _ =>
    }
  }

  function Delta(e: Effect, k: BlockKey): int {
    match e
    case Stay => 0
    case Take(key) => if k == key then 1 else 0
    case Give(key) => if k == key then -1 else 0
  }

  lemma StayMoves(t: Tables, step: Step, k: BlockKey)
    requires Inv(t) && Enabled(t, step) && EffectOf(t, step) == Stay
    ensures |HoldersOf(Apply(t, step), k)| == |HoldersOf(t, k)|
  {
    match step {
      case Begin(o, kind, keys) => BeginHolds(t, o, kind, keys);
      case StartDelivery(o, x, c) => StartDeliveryHolds(t, o, x, c);
      case ComeBack(o) => ComeBackHolds(t, o);
      case Finish(o) => LeaveHolds(t, o, t.ops[o].claimed);
      case Complete(o) => CompleteHolds(t, o);
      case _ => MarkHolds(t, step);
    }
    SameCount(t, Apply(t, step), k);
  }

  lemma TakeMoves(t: Tables, step: Step, k: BlockKey)
    requires Inv(t) && Enabled(t, step) && EffectOf(t, step).Take?
    ensures |HoldersOf(Apply(t, step), k)| == |HoldersOf(t, k)| + Delta(EffectOf(t, step), k)
  {
    var u := Apply(t, step);
    match step
    case Grant(o, x, h, id) => GrantHolds(t, o, x, h, id); GainCount(t, u, ByHandle(h), x, k);
    case Await(o, x) => AwaitHolds(t, o, x); GainCount(t, u, ByOp(o), x, k);
    case StartDeposit(o, x, c) => StartDepositHolds(t, o, x, c); GainCount(t, u, ByCopy(c), x, k);
    case StartFill(o, x, id) => StartFillHolds(t, o, x, id); GainCount(t, u, ByFill, x, k);
    case TakeSource(o, x, id) => EntryStepHolds(t, step); GainCount(t, u, BySource(o), x, k);
  }

  lemma EndDeliveryHolds(t: Tables, c: CopyId, k: BlockKey, ok: bool)
    requires Inv(t) && Enabled(t, EndDelivery(c, k, ok))
    ensures Gains(ApplyEndDelivery(t, c, k, ok), t, ByOp(t.copies[c].op), k)
  {
    match t.copies[c].ending
    case Some(captured) => if captured { EndForOpHolds(t, c, k, ok); } else { EndAloneHolds(t, c, k); }
  }

  lemma GiveMoves(t: Tables, step: Step, k: BlockKey)
    requires Inv(t) && Enabled(t, step) && EffectOf(t, step).Give?
    ensures |HoldersOf(Apply(t, step), k)| == |HoldersOf(t, k)| + Delta(EffectOf(t, step), k)
  {
    var u := Apply(t, step);
    match step
    case EndFill(x, ok) => EndFillHolds(t, x, ok); GainCount(u, t, ByFill, x, k);
    case EndDeposit(c, x, ok) => EndDepositHolds(t, c, x, ok); GainCount(u, t, ByCopy(c), x, k);
    case EndDelivery(c, x, ok) => EndDeliveryHolds(t, c, x, ok); GainCount(u, t, ByOp(t.copies[c].op), x, k);
    case GiveBack(o, x) => GiveBackHolds(t, o, x); GainCount(u, t, ByOp(o), x, k);
    case Release(h) => EntryStepHolds(t, step); GainCount(u, t, ByHandle(h), t.public[h].key, k);
    case DropSource(o, x) => EntryStepHolds(t, step); GainCount(u, t, BySource(o), x, k);
  }

  /** The claims on a key change as the step says, whatever tables it moves them between. */
  lemma StepMoves(t: Tables, step: Step, k: BlockKey)
    requires Inv(t) && Enabled(t, step)
    ensures |HoldersOf(Apply(t, step), k)| == |HoldersOf(t, k)| + Delta(EffectOf(t, step), k)
  {
    match EffectOf(t, step)
    case Stay => StayMoves(t, step, k);
    case Take(x) => TakeMoves(t, step, k);
    case Give(x) => GiveMoves(t, step, k);
  }
}
