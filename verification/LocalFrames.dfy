/** When a return to a delivery cannot fail. */
module LocalFrames {
  import opened Prelude
  import opened LocalOps
  import LocalVerdicts
  import opened LocalRuns
  import opened LocalResults

  /** A frame has turned to the delivery and will come back to it. */
  ghost predicate Engaged(t: Tables, o: OpId) { o in t.owed || Captured(t, o) }

  ghost predicate Captured(t: Tables, o: OpId) {
    exists c :: c in t.copies && t.copies[c].op == o && t.copies[c].ending == Some(true)
  }

  /** No frame turns to a delivery to which another one is still to come back. */
  ghost predicate Polite(t: Tables, step: Step) {
    match step
    case Collect(o) => !Engaged(t, o)
    case Arrive(c) => c in t.copies && t.copies[c].op in t.pending ==> !Engaged(t, t.copies[c].op)
    case Abandon(c) => c in t.copies && t.copies[c].deliver ==> !Engaged(t, t.copies[c].op)
    case _ => true
  }

  ghost predicate FrameOk(t: Tables, o: OpId) {
    && (Engaged(t, o) ==> o in t.pending)
    && t.owed[o] <= 1
    && (o in t.owed ==> !Captured(t, o))
  }

  ghost predicate CaptureOk(t: Tables, c: CopyId, d: CopyId) {
    && c in t.copies && d in t.copies && t.copies[c].op == t.copies[d].op
    && t.copies[c].ending == Some(true) && t.copies[d].ending == Some(true)
    ==> c == d
  }

  ghost predicate Frames(t: Tables) { (forall o :: FrameOk(t, o)) && forall c, d :: CaptureOk(t, c, d) }

  /** The steps after which the same frames are there, and the same deliveries are pending. */
  ghost predicate SameFrames(t: Tables, u: Tables) {
    && u.owed == t.owed && (forall o :: o in t.owed || Captured(t, o) ==> (o in t.pending ==> o in u.pending))
    && (forall c :: c in u.copies && u.copies[c].ending == Some(true) ==>
        c in t.copies && t.copies[c].ending == Some(true) && u.copies[c].op == t.copies[c].op)
  }

  lemma SameFramesKeep(t: Tables, u: Tables)
    requires Frames(t) && SameFrames(t, u)
    ensures Frames(u)
  {
    forall o ensures FrameOk(u, o) {
      assert FrameOk(t, o);
      if Captured(u, o) {
        var c :| c in u.copies && u.copies[c].op == o && u.copies[c].ending == Some(true);
        assert c in t.copies && t.copies[c].op == o && t.copies[c].ending == Some(true);
      }
    }
    forall c, d ensures CaptureOk(u, c, d) { assert CaptureOk(t, c, d); }
  }

  /** The steps that no frame is concerned with. */
  predicate Aside(step: Step) {
    && !step.Begin? && !step.Abandon? && !step.Arrive? && !step.EndDelivery?
    && !step.Collect? && !step.ComeBack? && !step.Finish?
    && !LocalVerdicts.TouchesCopies(step)
  }

  lemma AsideKeeps(t: Tables, step: Step)
    requires Frames(t) && LocalOps.Enabled(t, step) && Aside(step)
    ensures Frames(LocalOps.Apply(t, step))
  {
    var u := LocalOps.Apply(t, step);
    LocalVerdicts.SameCopies(t, step);
    assert u.owed == t.owed && u.pending == t.pending;
    SameFramesKeep(t, u);
  }

  lemma BeginFrames(t: Tables, o: OpId, kind: Kind, keys: set<BlockKey>)
    requires LocalOps.Inv(t) && Frames(t) && LocalOps.Enabled(t, Begin(o, kind, keys))
    ensures Frames(LocalOps.Apply(t, Begin(o, kind, keys)))
  {
    var u := LocalOps.Apply(t, Begin(o, kind, keys));
    assert OpOk(t, o);
    forall x ensures FrameOk(u, x) {
      assert FrameOk(t, x);
      if Captured(u, x) {
        var c :| c in t.copies && t.copies[c].op == x && t.copies[c].ending == Some(true);
        assert CopyOk(t, c);
        assert Captured(t, x);
      }
    }
    forall c, d ensures CaptureOk(u, c, d) { assert CaptureOk(t, c, d); }
  }

  lemma OwedFrames(t: Tables, u: Tables, o: OpId)
    requires Frames(t) && !Engaged(t, o) && o in t.pending && u.pending == t.pending && u.owed == t.owed + multiset{o}
    requires forall c :: c in u.copies && u.copies[c].ending == Some(true) ==>
      c in t.copies && t.copies[c].ending == Some(true) && u.copies[c].op == t.copies[c].op
    ensures Frames(u)
  {
    var s := u.(owed := t.owed);
    SameFramesKeep(t, s);
    forall x ensures FrameOk(u, x) {
      assert FrameOk(s, x) && FrameOk(t, x);
      if Captured(u, x) {
        var c :| c in u.copies && u.copies[c].op == x && u.copies[c].ending == Some(true);
        assert c in t.copies && t.copies[c].op == x && t.copies[c].ending == Some(true);
        assert Captured(t, x) && Captured(s, x);
      }
    }
    forall c, d ensures CaptureOk(u, c, d) { assert CaptureOk(s, c, d); }
  }

  lemma ArriveFrames(t: Tables, c: CopyId)
    requires LocalOps.Inv(t) && Frames(t) && LocalOps.Enabled(t, Arrive(c)) && Polite(t, Arrive(c))
    ensures Frames(ApplyArrive(t, c))
  {
    var u, o := ApplyArrive(t, c), t.copies[c].op;
    if o in t.pending {
      forall x ensures FrameOk(u, x) {
        assert FrameOk(t, x);
        if Captured(u, x) && x != o {
          var d :| d in u.copies && u.copies[d].op == x && u.copies[d].ending == Some(true);
          assert d in t.copies && t.copies[d].op == x && t.copies[d].ending == Some(true);
        }
      }
      forall d, e ensures CaptureOk(u, d, e) {
        assert CaptureOk(t, d, e);
        if (d == c || e == c) && d != e && d in u.copies && e in u.copies {
          var other := if d == c then e else d;
          assert other in t.copies && t.copies[other].op == o && t.copies[other].ending == Some(true) ==>
            Captured(t, o);
        }
      }
    } else {
      SameFramesKeep(t, u);
    }
  }

  lemma EndDeliveryFrames(t: Tables, c: CopyId, k: BlockKey, ok: bool)
    requires LocalOps.Inv(t) && Frames(t) && LocalOps.Enabled(t, EndDelivery(c, k, ok))
    ensures Frames(ApplyEndDelivery(t, c, k, ok))
  {
    var u, o := ApplyEndDelivery(t, c, k, ok), t.copies[c].op;
    if t.copies[c].ending == Some(true) && t.copies[c].keys == {k} {
      assert Captured(t, o);
      assert FrameOk(t, o);
      forall x ensures FrameOk(u, x) {
        assert FrameOk(t, x);
        if Captured(u, x) {
          var d :| d in u.copies && u.copies[d].op == x && u.copies[d].ending == Some(true);
          assert d in t.copies && CaptureOk(t, c, d);
          assert Captured(t, x);
        }
      }
      forall d, e ensures CaptureOk(u, d, e) { assert CaptureOk(t, d, e); }
    } else {
      SameFramesKeep(t, u);
    }
  }

  lemma ComeBackFrames(t: Tables, o: OpId)
    requires LocalOps.Inv(t) && Frames(t) && LocalOps.Enabled(t, ComeBack(o))
    ensures Frames(ApplyComeBack(t, o))
  {
    var u := ApplyComeBack(t, o);
    forall x ensures FrameOk(u, x) {
      assert FrameOk(t, x);
      if Captured(u, x) {
        var c :| c in t.copies && t.copies[c].op == x && t.copies[c].ending == Some(true);
        assert Captured(t, x);
      }
    }
    forall c, d ensures CaptureOk(u, c, d) { assert CaptureOk(t, c, d); }
  }

  lemma FinishFrames(t: Tables, o: OpId)
    requires LocalOps.Inv(t) && Frames(t) && LocalOps.Enabled(t, Finish(o))
    ensures Frames(ApplyFinish(t, o))
  {
    var u := ApplyFinish(t, o);
    forall x | x in t.owed || Captured(t, x) ensures x != o {
      assert OpOk(t, x);
      if Captured(t, x) {
        var c :| c in t.copies && t.copies[c].op == x && t.copies[c].ending == Some(true);
        assert CopyOk(t, c);
      }
    }
    SameFramesKeep(t, u);
  }

  lemma CopiesFrames(t: Tables, step: Step)
    requires LocalOps.Inv(t) && Frames(t) && LocalOps.Enabled(t, step)
    requires step.StartDeposit? || step.StartDelivery? || step.EndDeposit?
    ensures Frames(LocalOps.Apply(t, step))
  {
    var u := LocalOps.Apply(t, step);
    assert u.owed == t.owed && u.pending == t.pending;
    match step {
      case StartDeposit(o, k, c) => assert u.copies == Add(t, o, k, c);
      case StartDelivery(o, k, c) => assert u.copies == Add(t, o, k, c);
      case EndDeposit(c, k, ok) => assert u.copies == Less(t, c, k);
    }
    SameFramesKeep(t, u);
  }

  lemma FramesKeep(t: Tables, step: Step)
    requires LocalOps.Inv(t) && Frames(t) && LocalOps.Enabled(t, step) && Polite(t, step)
    ensures Frames(LocalOps.Apply(t, step))
  {
    if Aside(step) {
      AsideKeeps(t, step);
    } else {
      match step
      case Begin(o, kind, keys) => BeginFrames(t, o, kind, keys);
      case Abandon(c) =>
        var u := ApplyAbandon(t, c);
        if t.copies[c].deliver { OwedFrames(t, u, t.copies[c].op); } else { SameFramesKeep(t, u); }
      case Arrive(c) => ArriveFrames(t, c);
      case EndDelivery(c, k, ok) => EndDeliveryFrames(t, c, k, ok);
      case Collect(o) => OwedFrames(t, t.(owed := t.owed + multiset{o}), o);
      case ComeBack(o) => ComeBackFrames(t, o);
      case Finish(o) => FinishFrames(t, o);
      case StartDeposit(o, k, c) => CopiesFrames(t, step);
      case StartDelivery(o, k, c) => CopiesFrames(t, step);
      case EndDeposit(c, k, ok) => CopiesFrames(t, step);
    }
  }

  ghost predicate PoliteRun(s: Local, moves: seq<Move>)
    requires CanRun(s, moves)
    decreases |moves|
  {
    moves == []
      || ((moves[0].OnTables? ==> Polite(s.t, moves[0].step)) && PoliteRun(LocalRuns.Apply(s, moves[0]), moves[1..]))
  }

  lemma {:induction false} PoliteKeeps(s: Local, moves: seq<Move>)
    requires LocalRuns.Inv(s) && CanRun(s, moves) && Frames(s.t) && PoliteRun(s, moves)
    ensures Frames(After(s, moves).t)
    decreases |moves|
  {
    if moves != [] {
      LocalRuns.StepKeeps(s, moves[0]);
      if moves[0].OnTables? {
        FramesKeep(s.t, moves[0].step);
      }
      PoliteKeeps(LocalRuns.Apply(s, moves[0]), moves[1..]);
    }
  }

  /** As long as no frame turns to a delivery that another frame is still to come back to,
      nothing at all raises: whatever can come next works. */
  lemma PoliteRunsNeverFail(all: set<Slot>, moves: seq<Move>, m: Move)
    requires CanRun(Start(all), moves) && PoliteRun(Start(all), moves) && LocalRuns.Offered(After(Start(all), moves), m)
    ensures LocalRuns.Works(After(Start(all), moves), m)
  {
    StartInv(all);
    PoliteKeeps(Start(all), moves);
    var t := After(Start(all), moves).t;
    if m.OnTables? && IsReturn(t, m.step) {
      var o := ReturnsTo(t, m.step);
      assert FrameOk(t, o);
      ReturnWorksIffPending(all, moves, m.step);
    } else {
      OnlyReturnsCanFail(all, moves, m);
    }
  }
}
