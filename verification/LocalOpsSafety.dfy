/** Every step of the local operations keeps their invariant, and moves one claim at most. */
module LocalOpsSafety {
  import opened Prelude
  import opened LocalOps

  // -- The invariant.

  /** An operation that has been extended, but not in what it copies. */
  ghost predicate Extends(op: Op, more: Op) {
    && more.kind == op.kind && more.keys == op.keys && more.active == op.active
    && op.results.Keys <= more.results.Keys <= op.keys && op.claimed <= more.claimed <= op.keys && more.asked <= op.keys
    && (op.kind != Fetch ==> more.asked == op.asked)
    && (op.kind == Deliver ==> op.active !! (more.results.Keys - op.results.Keys))
  }

  lemma UpdateKeeps(t: Tables, o: OpId, more: Op)
    requires Inv(t) && o in t.pending && o in t.ops && Extends(t.ops[o], more)
    ensures Inv(Update(t, o, more))
  {
    var u := Update(t, o, more);
    forall x ensures OpOk(u, x) { assert OpOk(t, x); }
    forall c ensures CopyOk(u, c) { assert CopyOk(t, c); }
    forall c, d ensures Apart(u, c, d) { assert Apart(t, c, d); }
    forall x, k ensures ActiveOk(u, x, k) { assert ActiveOk(t, x, k); if InFlight(t, x, k) { SameFlight(t, u, x, k); } }
    forall x ensures DoneOk(u, x) { assert DoneOk(t, x); }
  }

  lemma SameFlight(t: Tables, u: Tables, o: OpId, k: BlockKey)
    requires u.copies == t.copies
    ensures InFlight(u, o, k) <==> InFlight(t, o, k)
  {
  }

  lemma OpenedKeeps(t: Tables, o: OpId, kind: Kind, keys: set<BlockKey>)
    requires Inv(t) && o !in t.ops
    ensures Inv(Opened(t, o, kind, keys))
  {
    var u := Opened(t, o, kind, keys);
    forall x ensures OpOk(u, x) { assert OpOk(t, x); }
    forall c ensures CopyOk(u, c) { assert CopyOk(t, c) && OpOk(t, o); }
    forall c, d ensures Apart(u, c, d) { assert Apart(t, c, d); }
    forall x, k ensures ActiveOk(u, x, k) { assert ActiveOk(t, x, k); SameFlight(t, u, x, k); }
    forall x ensures DoneOk(u, x) { assert DoneOk(t, x); }
  }

  lemma EmptyKeeps(t: Tables, o: OpId, kind: Kind)
    requires Inv(t) && o !in t.ops
    ensures Inv(Empty(t, o, kind))
  {
    var u := Empty(t, o, kind);
    assert OpOk(t, o);
    forall x ensures OpOk(u, x) { assert OpOk(t, x); }
    forall c ensures CopyOk(u, c) { assert CopyOk(t, c); }
    forall c, d ensures Apart(u, c, d) { assert Apart(t, c, d); }
    forall x, k ensures ActiveOk(u, x, k) { assert ActiveOk(t, x, k); SameFlight(t, u, x, k); }
    NewlyDone(t, u, Completion(o, map[]));
  }

  /** One more completion, of an operation that had none. */
  lemma NewlyDone(t: Tables, u: Tables, last: Completion)
    requires Dones(t) && u.done == t.done + [last] && last.op in u.ops && last.results.Keys == u.ops[last.op].keys
    requires last.op !in u.pending && last.op !in u.leaving
    requires last.op in t.ops ==> last.op in t.pending || last.op in t.leaving
    requires t.ops.Keys <= u.ops.Keys <= t.ops.Keys + {last.op}
    requires forall o :: o in t.ops ==> u.ops[o].keys == t.ops[o].keys
    requires forall o :: o != last.op ==> ((o in u.pending || o in u.leaving) <==> (o in t.pending || o in t.leaving))
    ensures Dones(u)
  {
    forall i | 0 <= i < |t.done| ensures u.done[i] == t.done[i] && t.done[i].op != last.op {
      if last.op in t.ops {
        assert DoneOk(t, last.op);
      }
    }
    forall o ensures DoneOk(u, o) {
      assert DoneOk(t, o);
      if o == last.op {
        assert u.done[|t.done|].op == o;
      }
    }
  }

  /** A key joins a copy of its operation. */
  lemma AddKeeps(t: Tables, o: OpId, k: BlockKey, c: CopyId)
    requires Inv(t) && Unresolved(t, o, k) && t.ops[o].kind != Fetch && k !in t.ops[o].active && CanJoin(t, o, c)
    requires t.ops[o].kind == Deliver ==> k in t.ops[o].claimed
    ensures Inv(Update(t, o, t.ops[o].(active := t.ops[o].active + {k})).(copies := Add(t, o, k, c)))
  {
    var u := Update(t, o, t.ops[o].(active := t.ops[o].active + {k})).(copies := Add(t, o, k, c));
    forall x ensures OpOk(u, x) { assert OpOk(t, x); }
    forall x ensures CopyOk(u, x) { assert CopyOk(t, x) && OpOk(t, o); }
    forall x, y ensures Apart(u, x, y) { assert Apart(t, x, y) && CopyOk(t, x) && CopyOk(t, y); }
    forall x, y ensures ActiveOk(u, x, y) {
      assert ActiveOk(t, x, y);
      if x == o && y == k {
        assert c in u.copies && u.copies[c].op == o && k in u.copies[c].keys;
      } else if InFlight(t, x, y) {
        var d :| d in t.copies && t.copies[d].op == x && y in t.copies[d].keys;
        assert d in u.copies && u.copies[d].op == x && y in u.copies[d].keys;
      }
    }
    forall x ensures DoneOk(u, x) { assert DoneOk(t, x); }
  }

  lemma EndFillKeeps(t: Tables, k: BlockKey, ok: bool)
    requires Inv(t)
    ensures Inv(t.(ops := Told(t, k, ok), fills := t.fills - {k}))
  {
    var u := t.(ops := Told(t, k, ok), fills := t.fills - {k});
    forall x ensures OpOk(u, x) { assert OpOk(t, x); }
    forall c ensures CopyOk(u, c) { assert CopyOk(t, c); if c in t.copies { assert OpOk(t, t.copies[c].op); } }
    forall c, d ensures Apart(u, c, d) { assert Apart(t, c, d); }
    forall x, y ensures ActiveOk(u, x, y) { assert ActiveOk(t, x, y); SameFlight(t, u, x, y); }
    forall x ensures DoneOk(u, x) { assert DoneOk(t, x); }
  }

  lemma AbandonKeeps(t: Tables, c: CopyId)
    requires Inv(t) && Enabled(t, Abandon(c))
    ensures Inv(ApplyAbandon(t, c))
  {
    var u, o := ApplyAbandon(t, c), t.copies[c].op;
    assert CopyOk(t, c) && OpOk(t, o);
    forall x ensures OpOk(u, x) { assert OpOk(t, x); }
    forall d ensures CopyOk(u, d) { assert CopyOk(t, d) && Apart(t, c, d); }
    forall d, e ensures Apart(u, d, e) { assert Apart(t, d, e); }
    forall x, k ensures ActiveOk(u, x, k) {
      assert ActiveOk(t, x, k);
      FlagFlight(t, u, c, x, k);
    }
    forall x ensures DoneOk(u, x) { assert DoneOk(t, x); }
  }

  /** Marking a copy changes nothing about what is in flight. */
  lemma FlagFlight(t: Tables, u: Tables, c: CopyId, o: OpId, k: BlockKey)
    requires c in t.copies && u.copies.Keys == t.copies.Keys
    requires forall d :: d in t.copies ==> u.copies[d].op == t.copies[d].op && u.copies[d].keys == t.copies[d].keys
    ensures InFlight(u, o, k) <==> InFlight(t, o, k)
  {
    if InFlight(t, o, k) {
      var d :| d in t.copies && t.copies[d].op == o && k in t.copies[d].keys;
      assert d in u.copies;
    }
    if InFlight(u, o, k) {
      var d :| d in u.copies && u.copies[d].op == o && k in u.copies[d].keys;
      assert d in t.copies;
    }
  }

  /** A key that leaves its copy is the only one no longer in flight. */
  lemma LessFlight(t: Tables, u: Tables, c: CopyId, k: BlockKey, o: OpId, y: BlockKey)
    requires Copies(t) && c in t.copies && k in t.copies[c].keys && u.copies == Less(t, c, k)
    ensures InFlight(u, o, y) <==> InFlight(t, o, y) && !(o == t.copies[c].op && y == k)
  {
    if InFlight(t, o, y) && !(o == t.copies[c].op && y == k) {
      var d :| d in t.copies && t.copies[d].op == o && y in t.copies[d].keys;
      assert d in u.copies && u.copies[d].op == o && y in u.copies[d].keys;
    }
    if InFlight(u, o, y) {
      var d :| d in u.copies && u.copies[d].op == o && y in u.copies[d].keys;
      assert d in t.copies && Apart(t, c, d);
    }
  }

  lemma EndDepositKeeps(t: Tables, c: CopyId, k: BlockKey, ok: bool)
    requires Inv(t) && Enabled(t, EndDeposit(c, k, ok))
    ensures Inv(ApplyEndDeposit(t, c, k, ok))
  {
    var u, o := ApplyEndDeposit(t, c, k, ok), t.copies[c].op;
    assert CopyOk(t, c) && OpOk(t, o);
    forall x ensures OpOk(u, x) { assert OpOk(t, x); }
    forall d ensures CopyOk(u, d) { assert CopyOk(t, d) && Apart(t, c, d); }
    forall d, e ensures Apart(u, d, e) { assert Apart(t, d, e); }
    forall x, y ensures ActiveOk(u, x, y) { assert ActiveOk(t, x, y); LessFlight(t, u, c, k, x, y); }
    forall x ensures DoneOk(u, x) { assert DoneOk(t, x); }
  }

  lemma ArriveKeeps(t: Tables, c: CopyId)
    requires Inv(t) && Enabled(t, Arrive(c))
    ensures Inv(ApplyArrive(t, c))
  {
    var u := ApplyArrive(t, c);
    forall x ensures OpOk(u, x) { assert OpOk(t, x); }
    forall d ensures CopyOk(u, d) { assert CopyOk(t, d); }
    forall d, e ensures Apart(u, d, e) { assert Apart(t, d, e); }
    forall x, k ensures ActiveOk(u, x, k) { assert ActiveOk(t, x, k); FlagFlight(t, u, c, x, k); }
    forall x ensures DoneOk(u, x) { assert DoneOk(t, x); }
  }

  lemma EndForOpKeeps(t: Tables, c: CopyId, k: BlockKey, ok: bool)
    requires Inv(t) && Enabled(t, EndDelivery(c, k, ok)) && t.copies[c].ending == Some(true)
    ensures Inv(EndForOp(t, c, k, ok))
  {
    var u, o := EndForOp(t, c, k, ok), t.copies[c].op;
    assert CopyOk(t, c) && OpOk(t, o);
    forall x ensures OpOk(u, x) { assert OpOk(t, x); }
    forall d ensures CopyOk(u, d) { assert CopyOk(t, d) && Apart(t, c, d); }
    forall d, e ensures Apart(u, d, e) { assert Apart(t, d, e); }
    forall x, y ensures ActiveOk(u, x, y) { assert ActiveOk(t, x, y); LessFlight(t, u, c, k, x, y); }
    forall x ensures DoneOk(u, x) { assert DoneOk(t, x); }
  }

  lemma EndAloneKeeps(t: Tables, c: CopyId, k: BlockKey)
    requires Inv(t) && c in t.copies && k in t.copies[c].keys && t.copies[c].ending == Some(false)
    ensures Inv(t.(copies := Less(t, c, k)))
  {
    var u := t.(copies := Less(t, c, k));
    assert CopyOk(t, c);
    forall x ensures OpOk(u, x) { assert OpOk(t, x); }
    forall d ensures CopyOk(u, d) { assert CopyOk(t, d); }
    forall d, e ensures Apart(u, d, e) { assert Apart(t, d, e); }
    forall x, y ensures ActiveOk(u, x, y) { assert ActiveOk(t, x, y); LessFlight(t, u, c, k, x, y); }
    forall x ensures DoneOk(u, x) { assert DoneOk(t, x); }
  }

  lemma OwedKeeps(t: Tables, owed: multiset<OpId>)
    requires Inv(t) && forall o :: o in owed ==> IsDelivery(t, o)
    ensures Inv(t.(owed := owed))
  {
    var u := t.(owed := owed);
    forall x ensures OpOk(u, x) { assert OpOk(t, x); }
    forall d ensures CopyOk(u, d) { assert CopyOk(t, d); }
    forall d, e ensures Apart(u, d, e) { assert Apart(t, d, e); }
    forall x, k ensures ActiveOk(u, x, k) { assert ActiveOk(t, x, k); SameFlight(t, u, x, k); }
    forall x ensures DoneOk(u, x) { assert DoneOk(t, x); }
  }

  lemma LeaveKeeps(t: Tables, o: OpId, back: set<BlockKey>)
    requires Inv(t) && o in t.pending && o in t.ops && t.ops[o].results.Keys == t.ops[o].keys
    requires IsDelivery(t, o) ==> back !! t.ops[o].active
    ensures Inv(Left(t, o, back))
  {
    var u := Left(t, o, back);
    assert OpOk(t, o);
    forall x ensures OpOk(u, x) { assert OpOk(t, x); }
    forall d ensures CopyOk(u, d) { assert CopyOk(t, d); }
    forall d, e ensures Apart(u, d, e) { assert Apart(t, d, e); }
    forall x, k ensures ActiveOk(u, x, k) { assert ActiveOk(t, x, k); SameFlight(t, u, x, k); }
    forall x ensures DoneOk(u, x) { assert DoneOk(t, x); }
  }

  lemma ComeBackKeeps(t: Tables, o: OpId)
    requires Inv(t) && Enabled(t, ComeBack(o))
    ensures Inv(ApplyComeBack(t, o))
  {
    var s := t.(owed := t.owed - multiset{o});
    forall x | x in s.owed ensures IsDelivery(t, x) { assert OpOk(t, x); }
    OwedKeeps(t, s.owed);
    if t.ops[o].results.Keys == t.ops[o].keys {
      LeaveKeeps(s, o, t.ops[o].claimed - t.ops[o].active);
    }
  }

  lemma GiveBackKeeps(t: Tables, o: OpId, k: BlockKey)
    requires Inv(t) && Enabled(t, GiveBack(o, k))
    ensures Inv(t.(leaving := t.leaving[o := t.leaving[o] - {k}]))
  {
    var u := t.(leaving := t.leaving[o := t.leaving[o] - {k}]);
    forall x ensures OpOk(u, x) { assert OpOk(t, x); }
    forall d ensures CopyOk(u, d) { assert CopyOk(t, d); }
    forall d, e ensures Apart(u, d, e) { assert Apart(t, d, e); }
    forall x, y ensures ActiveOk(u, x, y) { assert ActiveOk(t, x, y); SameFlight(t, u, x, y); }
    forall x ensures DoneOk(u, x) { assert DoneOk(t, x); }
  }

  lemma CompleteKeeps(t: Tables, o: OpId)
    requires Inv(t) && Enabled(t, Complete(o))
    ensures Inv(t.(leaving := t.leaving - {o}, done := t.done + [Completion(o, t.ops[o].results)]))
  {
    var u := t.(leaving := t.leaving - {o}, done := t.done + [Completion(o, t.ops[o].results)]);
    assert OpOk(t, o);
    forall x ensures OpOk(u, x) { assert OpOk(t, x); }
    forall d ensures CopyOk(u, d) { assert CopyOk(t, d); }
    forall d, e ensures Apart(u, d, e) { assert Apart(t, d, e); }
    forall x, y ensures ActiveOk(u, x, y) { assert ActiveOk(t, x, y); SameFlight(t, u, x, y); }
    NewlyDone(t, u, Completion(o, t.ops[o].results));
  }

  /** The public handles and the sources are no part of this invariant. */
  lemma EntriesKeep(t: Tables, u: Tables)
    requires Inv(t) && u == t.(public := u.public, sources := u.sources, fills := u.fills)
    ensures Inv(u)
  {
    forall x ensures OpOk(u, x) { assert OpOk(t, x); }
    forall d ensures CopyOk(u, d) { assert CopyOk(t, d); }
    forall d, e ensures Apart(u, d, e) { assert Apart(t, d, e); }
    forall x, y ensures ActiveOk(u, x, y) { assert ActiveOk(t, x, y); SameFlight(t, u, x, y); }
    forall x ensures DoneOk(u, x) { assert DoneOk(t, x); }
  }

  lemma GrantKeeps(t: Tables, o: OpId, k: BlockKey, h: nat, id: nat)
    requires Inv(t) && Enabled(t, Grant(o, k, h, id))
    ensures Inv(Apply(t, Grant(o, k, h, id)))
  {
    assert OpOk(t, o);
    var u := Update(t, o, t.ops[o].(results := t.ops[o].results[k := true]));
    UpdateKeeps(t, o, u.ops[o]);
    EntriesKeep(u, u.(public := t.public[h := Entry(k, id)]));
  }

  lemma StartFillKeeps(t: Tables, o: OpId, k: BlockKey, id: nat)
    requires Inv(t) && Enabled(t, StartFill(o, k, id))
    ensures Inv(Apply(t, StartFill(o, k, id)))
  {
    assert OpOk(t, o);
    var u := Update(t, o, t.ops[o].(asked := t.ops[o].asked + {k}));
    UpdateKeeps(t, o, u.ops[o]);
    EntriesKeep(u, u.(fills := t.fills[k := id]));
  }

  lemma SettleKeeps(t: Tables, o: OpId, k: BlockKey, ok: bool)
    requires Inv(t) && Enabled(t, Settle(o, k, ok))
    ensures Inv(Apply(t, Settle(o, k, ok)))
  {
    assert OpOk(t, o);
    UpdateKeeps(t, o, t.ops[o].(results := t.ops[o].results[k := ok]));
  }

  lemma AwaitKeeps(t: Tables, o: OpId, k: BlockKey)
    requires Inv(t) && Enabled(t, Await(o, k))
    ensures Inv(Apply(t, Await(o, k)))
  {
    assert OpOk(t, o);
    UpdateKeeps(t, o, t.ops[o].(claimed := t.ops[o].claimed + {k}));
  }

  lemma CollectKeeps(t: Tables, o: OpId)
    requires Inv(t) && Enabled(t, Collect(o))
    ensures Inv(Apply(t, Collect(o)))
  {
    forall x | x in t.owed ensures IsDelivery(t, x) { assert OpOk(t, x); }
    OwedKeeps(t, t.owed + multiset{o});
  }

  lemma EndDeliveryKeeps(t: Tables, c: CopyId, k: BlockKey, ok: bool)
    requires Inv(t) && Enabled(t, EndDelivery(c, k, ok))
    ensures Inv(ApplyEndDelivery(t, c, k, ok))
  {
    match t.copies[c].ending
    case Some(captured) =>
      if captured {
        EndForOpKeeps(t, c, k, ok);
      } else {
        EndAloneKeeps(t, c, k);
      }
  }

  /** The steps by which an operation, or its part in a key, begins. */
  predicate Starts(step: Step) {
    step.Begin? || step.Settle? || step.Grant? || step.Await? || step.StartDeposit? || step.StartDelivery?
      || step.StartFill?
  }

  lemma StartKeeps(t: Tables, step: Step)
    requires Inv(t) && Enabled(t, step) && Starts(step)
    ensures Inv(Apply(t, step))
  {
    match step
    case Begin(o, kind, keys) => if keys == {} { EmptyKeeps(t, o, kind); } else { OpenedKeeps(t, o, kind, keys); }
    case Settle(o, k, ok) => SettleKeeps(t, o, k, ok);
    case Grant(o, k, h, id) => GrantKeeps(t, o, k, h, id);
    case Await(o, k) => AwaitKeeps(t, o, k);
    case StartDeposit(o, k, c) => AddKeeps(t, o, k, c);
    case StartDelivery(o, k, c) => AddKeeps(t, o, k, c);
    case StartFill(o, k, id) => StartFillKeeps(t, o, k, id);
  }

  lemma StepKeeps(t: Tables, step: Step)
    requires Inv(t) && Enabled(t, step)
    ensures Inv(Apply(t, step))
  {
    if Starts(step) {
      StartKeeps(t, step);
    } else {
      match step
      case EndFill(k, ok) => EndFillKeeps(t, k, ok);
      case Abandon(c) => AbandonKeeps(t, c);
      case EndDeposit(c, k, ok) => EndDepositKeeps(t, c, k, ok);
      case Arrive(c) => ArriveKeeps(t, c);
      case EndDelivery(c, k, ok) => EndDeliveryKeeps(t, c, k, ok);
      case Collect(o) => CollectKeeps(t, o);
      case ComeBack(o) => ComeBackKeeps(t, o);
      case Finish(o) => LeaveKeeps(t, o, t.ops[o].claimed);
      case GiveBack(o, k) => GiveBackKeeps(t, o, k);
      case Complete(o) => CompleteKeeps(t, o);
      case Release(h) => EntriesKeep(t, t.(public := t.public - {h}));
      case TakeSource(o, k, id) => EntriesKeep(t, t.(sources := t.sources[Source(o, k) := id]));
      case DropSource(o, k) => EntriesKeep(t, t.(sources := t.sources - {Source(o, k)}));
    }
  }
}
