/** What holds in every run of the local operations. */
module LocalResults {
  import opened Prelude
  import P = Pools
  import PoolRuns
  import opened LocalOps
  import LocalOpsSafety
  import opened LocalRuns
  import LocalOutcomes

  ghost predicate CanRun(s: Local, moves: seq<Move>)
    decreases |moves|
  {
    moves == [] || (LocalRuns.Enabled(s, moves[0]) && CanRun(LocalRuns.Apply(s, moves[0]), moves[1..]))
  }

  ghost function After(s: Local, moves: seq<Move>): Local
    requires CanRun(s, moves)
    decreases |moves|
  {
    if moves == [] then s else After(LocalRuns.Apply(s, moves[0]), moves[1..])
  }

  /** From `s`, these moves lead to `t`. */
  ghost predicate Leads(s: Local, moves: seq<Move>, t: Local) {
    forall rest :: CanRun(t, rest) ==> CanRun(s, moves + rest) && After(s, moves + rest) == After(t, rest)
  }

  lemma LeadsNowhere(s: Local)
    ensures Leads(s, [], s)
  {
    forall rest | CanRun(s, rest) ensures CanRun(s, [] + rest) && After(s, [] + rest) == After(s, rest) {
      assert [] + rest == rest;
    }
  }

  lemma Prepend(s: Local, m: Move, t: Local, rest: seq<Move>, all: seq<Move>)
    requires LocalRuns.Enabled(s, m) && LocalRuns.Apply(s, m) == t && CanRun(t, rest) && all == [m] + rest
    ensures CanRun(s, all) && After(s, all) == After(t, rest)
  {
    assert all[0] == m && all[1..] == rest;
  }

  lemma Then(s: Local, m: Move, t: Local, moves: seq<Move>, u: Local)
    requires LocalRuns.Enabled(s, m) && LocalRuns.Apply(s, m) == t && Leads(t, moves, u)
    ensures Leads(s, [m] + moves, u)
  {
    forall rest | CanRun(u, rest)
      ensures CanRun(s, [m] + moves + rest) && After(s, [m] + moves + rest) == After(u, rest)
    {
      Prepend(s, m, t, moves + rest, [m] + moves + rest);
    }
  }

  function Start(all: set<Slot>): Local { Local(PoolRuns.Empty(all), NOTHING) }

  lemma StartInv(all: set<Slot>)
    ensures LocalRuns.Inv(Start(all))
  {
    PoolRuns.EmptyInv(all);
    var s := Start(all);
    forall k ensures CountOk(s, k) {
      forall h ensures h !in HoldersOf(s.t, k) { assert !Holds(s.t, h, k); }
    }
  }

  lemma {:induction false} RunKeeps(s: Local, moves: seq<Move>)
    requires LocalRuns.Inv(s) && CanRun(s, moves)
    ensures LocalRuns.Inv(After(s, moves))
    decreases |moves|
  {
    if moves != [] {
      LocalRuns.StepKeeps(s, moves[0]);
      RunKeeps(LocalRuns.Apply(s, moves[0]), moves[1..]);
    }
  }

  /** In every run, the claim count of a key's residency is the number of claims that the public
      handles, the copies in flight, the fill, the operations and the sources have on that key;
      no other residency is claimed, and a key without a residency is claimed by nobody. */
  lemma ClaimsAreTheHolders(all: set<Slot>, moves: seq<Move>, k: BlockKey, id: nat)
    requires CanRun(Start(all), moves)
    ensures var s := After(Start(all), moves);
      && (k in s.pool.resident ==> s.pool.claims[s.pool.resident[k]] == |HoldersOf(s.t, k)|)
      && (k !in s.pool.resident ==> HoldersOf(s.t, k) == {})
      && (id in s.pool.claims ==> P.Seated(s.pool.blocks, s.pool.resident, id))
  {
    StartInv(all);
    RunKeeps(Start(all), moves);
    var s := After(Start(all), moves);
    assert CountOk(s, k) && P.ClaimOk(s.pool, id);
  }

  /** Every operation is pending, or giving back its claims, or has completed; it completes once,
      with a result for each of its keys and for no other. */
  lemma OperationsCompleteOnce(all: set<Slot>, moves: seq<Move>)
    requires CanRun(Start(all), moves)
    ensures var t := After(Start(all), moves).t;
      && (forall i, j :: 0 <= i < j < |t.done| ==> t.done[i].op != t.done[j].op)
      && (forall i :: 0 <= i < |t.done| ==> t.done[i].op in t.ops && t.done[i].results.Keys == t.ops[t.done[i].op].keys)
      && (forall o :: o in t.ops ==>
            (o in t.pending || o in t.leaving <==> forall i :: 0 <= i < |t.done| ==> t.done[i].op != o))
  {
    StartInv(all);
    RunKeeps(Start(all), moves);
    var t := After(Start(all), moves).t;
    forall o | o in t.ops
      ensures o in t.pending || o in t.leaving <==> forall i :: 0 <= i < |t.done| ==> t.done[i].op != o
    {
      assert DoneOk(t, o);
    }
  }

  // -- What operations complete with.

  /** The steps that the operations take in a run. */
  function StepsOf(moves: seq<Move>): seq<Step> {
    if moves == [] then [] else (if moves[0].OnTables? then [moves[0].step] else []) + StepsOf(moves[1..])
  }

  /** One move, as a step of the tables or none. */
  lemma MoveFollows(s: Local, m: Move, past: seq<Step>) returns (more: seq<Step>)
    requires LocalRuns.Enabled(s, m) && LocalOutcomes.CanRun(past) && LocalOutcomes.After(past) == s.t
    ensures more == past + if m.OnTables? then [m.step] else []
    ensures LocalOutcomes.CanRun(more) && LocalOutcomes.After(more) == LocalRuns.Apply(s, m).t
  {
    more := past;
    if m.OnTables? {
      more := past + [m.step];
      LocalOutcomes.OneMore(past, m.step);
    }
  }

  lemma RunOnce(s: Local, moves: seq<Move>) returns (next: Local)
    requires CanRun(s, moves) && moves != []
    ensures LocalRuns.Enabled(s, moves[0]) && next == LocalRuns.Apply(s, moves[0])
    ensures CanRun(next, moves[1..]) && After(s, moves) == After(next, moves[1..])
  {
    next := LocalRuns.Apply(s, moves[0]);
  }

  lemma StepsJoin(moves: seq<Move>, past: seq<Step>, more: seq<Step>)
    requires moves != [] && more == past + if moves[0].OnTables? then [moves[0].step] else []
    ensures past + StepsOf(moves) == more + StepsOf(moves[1..])
  {
  }

  /** The tables of a run are those of its steps. */
  lemma {:induction false} TablesFollow(s: Local, moves: seq<Move>, past: seq<Step>)
    requires CanRun(s, moves) && LocalOutcomes.CanRun(past) && LocalOutcomes.After(past) == s.t
    ensures LocalOutcomes.CanRun(past + StepsOf(moves))
    ensures LocalOutcomes.After(past + StepsOf(moves)) == After(s, moves).t
    decreases |moves|
  {
    if moves == [] {
      assert past + StepsOf(moves) == past;
    } else {
      var next := RunOnce(s, moves);
      var more := MoveFollows(s, moves[0], past);
      TablesFollow(next, moves[1..], more);
      StepsJoin(moves, past, more);
    }
  }

  lemma RunTables(all: set<Slot>, moves: seq<Move>)
    requires CanRun(Start(all), moves)
    ensures LocalOutcomes.CanRun(StepsOf(moves))
    ensures LocalOutcomes.After(StepsOf(moves)) == After(Start(all), moves).t
  {
    TablesFollow(Start(all), moves, []);
    assert [] + StepsOf(moves) == StepsOf(moves);
  }

  /** In every run, what an operation completes with follows from the steps taken. For each key it is a
      success exactly if the first step to say anything about the key said yes and none had
      overruled it by then. For a delivery this is so exactly if a copy that carried the key for
      it came back with success; for a fetch, exactly if it was granted the key and no fill it
      asked for failed after that. */
  lemma ResultsFollow(all: set<Slot>, moves: seq<Move>, i: nat, k: BlockKey)
    requires CanRun(Start(all), moves) && i < |After(Start(all), moves).t.done|
    requires k in After(Start(all), moves).t.done[i].results
    ensures var t, steps := After(Start(all), moves).t, StepsOf(moves);
      var d := t.done[i];
      && (exists n: nat :: LocalOutcomes.CompletedAt(steps, n, d)) && d.op in t.ops
      && (t.ops[d.op].kind == Deliver ==> (d.results[k] <==> LocalOutcomes.Delivered(steps, d.op, k)))
      && (t.ops[d.op].kind == Fetch ==> (d.results[k] <==> LocalOutcomes.Fetched(steps, d.op, k)))
  {
    RunTables(all, moves);
    var t, steps := After(Start(all), moves).t, StepsOf(moves);
    LocalOutcomes.RunKeeps(steps);
    LocalOutcomes.CompletionsFollow(steps, i);
    LocalOutcomes.DoneIsOver(t, i);
    if t.ops[t.done[i].op].kind == Deliver {
      LocalOutcomes.DeliveriesFollow(steps, i, k);
    } else if t.ops[t.done[i].op].kind == Fetch {
      LocalOutcomes.FetchesFollow(steps, i, k);
    }
  }

  // -- What can fail.

  /** The steps at which a frame comes back to a delivery it has turned to earlier. */
  predicate IsReturn(t: Tables, step: Step) {
    step.ComeBack? || (step.EndDelivery? && step.copy in t.copies && t.copies[step.copy].ending == Some(true))
  }

  function ReturnsTo(t: Tables, step: Step): OpId
    requires IsReturn(t, step)
  {
    if step.ComeBack? then step.op else t.copies[step.copy].op
  }

  lemma HeldUnclaims(s: Local, h: Holder, k: BlockKey)
    requires LocalRuns.Inv(s) && P.Calm(s.pool) && Holds(s.t, h, k)
    ensures k in s.pool.resident && P.Enabled(s.pool, P.Unclaim(s.pool.resident[k]))
  {
    assert CountOk(s, k) && h in HoldersOf(s.t, k);
    var id := s.pool.resident[k];
    assert P.ClaimOk(s.pool, id) && P.OwnerOk(s.pool, id);
  }

  /** Who gives its claim back. */
  lemma GiverHolds(s: Local, step: Step)
    requires LocalRuns.Inv(s) && LocalRuns.Offered(s, OnTables(step)) && LocalOps.Works(s.t, step)
    requires EffectOf(s.t, step).Give?
    ensures exists h :: Holds(s.t, h, EffectOf(s.t, step).key)
  {
    match step
    case EndFill(k, ok) => assert Holds(s.t, ByFill, k);
    case EndDeposit(c, k, ok) => assert Holds(s.t, ByCopy(c), k);
    case EndDelivery(c, k, ok) =>
      assert CopyOk(s.t, c);
      CopiedIsHeld(s.t, c, k);
    case GiveBack(o, k) =>
      assert OpOk(s.t, o);
      assert Holds(s.t, ByOp(o), k);
    case Release(h) => assert Holds(s.t, ByHandle(h), s.t.public[h].key);
    case DropSource(o, k) => assert Holds(s.t, BySource(o), k);
  }

  lemma DeliveredIsReadable(s: Local, o: OpId, k: BlockKey)
    requires LocalRuns.Inv(s) && IsDelivery(s.t, o) && o in s.t.pending && k in s.t.ops[o].active
    ensures Readable(s, k)
  {
    assert ActiveOk(s.t, o, k);
    var c :| c in s.t.copies && s.t.copies[c].op == o && k in s.t.copies[c].keys;
    assert CopyOk(s.t, c) && ReadOk(s, c, k);
  }

  /** The tables do not fail: a copy's delivery is found when the copy is given up on, a deposit
      is active until its copy has ended, and a discarded block is not being delivered. */
  lemma TablesWork(s: Local, step: Step)
    requires LocalRuns.Inv(s) && LocalRuns.Offered(s, OnTables(step)) && !IsReturn(s.t, step)
    ensures LocalOps.Works(s.t, step)
  {
    match step
    case Settle(o, k, ok) =>
      if IsDelivery(s.t, o) && k in s.t.ops[o].active {
        DeliveredIsReadable(s, o, k);
      }
    case StartFill(o, k, id) => assert FillOk(s, k);
    case Abandon(c) => assert CopyOk(s.t, c) && OpOk(s.t, s.t.copies[c].op);
    case EndDeposit(c, k, ok) => assert CopyOk(s.t, c);
    case EndDelivery(c, k, ok) => assert CopyOk(s.t, c);
    case _ =>
  }

  lemma ClaimsWork(s: Local, step: Step)
    requires LocalRuns.Inv(s) && LocalRuns.Offered(s, OnTables(step)) && LocalOps.Works(s.t, step)
    ensures LocalRuns.Works(s, OnTables(step))
  {
    match EffectOf(s.t, step)
    case Stay =>
    case Take(k) =>
    case Give(k) =>
      GiverHolds(s, step);
      var h :| Holds(s.t, h, k);
      HeldUnclaims(s, h, k);
      match step {
        case Release(handle) => assert HandleOk(s, handle);
        case EndFill(x, ok) => assert FillOk(s, x);
        case DropSource(o, x) => assert SourceOk(s, Source(o, x));
        case EndDelivery(c, x, ok) => assert CopyOk(s.t, c) && ReadOk(s, c, x);
        case _ =>
      }
  }

  /** In every run, nothing raises but a return to a delivery: no claim is invalid, no fill,
      source or delivery state is lost, and no lookup fails. */
  lemma OnlyReturnsCanFail(all: set<Slot>, moves: seq<Move>, m: Move)
    requires CanRun(Start(all), moves) && LocalRuns.Offered(After(Start(all), moves), m)
    requires m.OnTables? ==> !IsReturn(After(Start(all), moves).t, m.step)
    ensures LocalRuns.Works(After(Start(all), moves), m)
  {
    StartInv(all);
    RunKeeps(Start(all), moves);
    var s := After(Start(all), moves);
    match m
    case OnPool(p) =>
    case OnTables(step) =>
      TablesWork(s, step);
      ClaimsWork(s, step);
  }

  /** A return raises exactly when the delivery has been finished meanwhile, which a look into
      the table of pending deliveries would tell. */
  lemma ReturnWorksIffPending(all: set<Slot>, moves: seq<Move>, step: Step)
    requires CanRun(Start(all), moves) && LocalRuns.Offered(After(Start(all), moves), OnTables(step))
    requires IsReturn(After(Start(all), moves).t, step)
    ensures var s := After(Start(all), moves);
      LocalRuns.Works(s, OnTables(step)) <==> ReturnsTo(s.t, step) in s.t.pending
  {
    StartInv(all);
    RunKeeps(Start(all), moves);
    var s := After(Start(all), moves);
    var o := ReturnsTo(s.t, step);
    assert OpOk(s.t, o);
    if step.EndDelivery? {
      assert CopyOk(s.t, step.copy);
    }
    if o in s.t.pending {
      assert LocalOps.Works(s.t, step);
      ClaimsWork(s, step);
    }
  }

  // -- Discarding a fill.

  /** What a pending fetch has asked for is still owed. */
  ghost predicate AskedOk(t: Tables, o: OpId, k: BlockKey) {
    o in t.pending && o in t.ops && k in t.ops[o].asked ==> k in t.fills
  }

  lemma AskedAtStart(t: Tables, step: Step, o: OpId, k: BlockKey)
    requires LocalOps.Inv(t) && LocalOps.Enabled(t, step) && AskedOk(t, o, k) && LocalOpsSafety.Starts(step)
    ensures AskedOk(LocalOps.Apply(t, step), o, k)
  {
    assert OpOk(t, o);
  }

  lemma AskedKeeps(t: Tables, step: Step, o: OpId, k: BlockKey)
    requires LocalOps.Inv(t) && LocalOps.Enabled(t, step) && AskedOk(t, o, k)
    ensures AskedOk(LocalOps.Apply(t, step), o, k)
  {
    if LocalOpsSafety.Starts(step) {
      AskedAtStart(t, step, o, k);
    }
  }

  lemma {:induction false} AskedRun(s: Local, moves: seq<Move>, o: OpId, k: BlockKey)
    requires LocalRuns.Inv(s) && CanRun(s, moves) && AskedOk(s.t, o, k)
    ensures AskedOk(After(s, moves).t, o, k)
    decreases |moves|
  {
    if moves != [] {
      LocalRuns.StepKeeps(s, moves[0]);
      if moves[0].OnTables? {
        AskedKeeps(s.t, moves[0].step, o, k);
      }
      AskedRun(LocalRuns.Apply(s, moves[0]), moves[1..], o, k);
    }
  }

  /** In every run, a fill that is owed, or that an expiring fetch has asked for, is found when it is
      discarded: the residency it fills is still its key's. */
  lemma DiscardFindsItsFill(all: set<Slot>, moves: seq<Move>, o: OpId, k: BlockKey)
    requires CanRun(Start(all), moves)
    ensures var s := After(Start(all), moves);
      k in s.t.fills || (o in s.t.pending && o in s.t.ops && k in s.t.ops[o].asked) ==>
        k in s.t.fills && k in s.pool.resident && s.pool.resident[k] == s.t.fills[k]
  {
    StartInv(all);
    RunKeeps(Start(all), moves);
    AskedRun(Start(all), moves, o, k);
    assert FillOk(After(Start(all), moves), k);
  }
}
