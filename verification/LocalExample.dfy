/**
 A run in which a frame comes back to a delivery that a nested one has finished. A deposit of two
 blocks fails. For the first, the delivery that waits for it is noted. The second is then
 given up, its slot is freed, and a fetch of the first block that was waiting for capacity is
 resumed; its fill cannot be started, and the delivery, whose deadline passes meanwhile, is failed
 and finished. When the deposit's frame comes back to the delivery, it is gone.

 The queue of fetches that wait for capacity is not part of the model. A fetch can still be in it
 while its block is being filled: a pass over the queue stops at a fetch whose spill is pending
 (src/kvcr/backends/local_dram.py:1013-1017), so the fetches behind that one stay, and a
 deposit takes free slots without queueing (local_dram.py:300-302). The fetch ahead leaves the queue
 when its deadline passes (local_dram.py:991-996), and the pass comes to the next.
 */
module LocalExample {
  import opened Prelude
  import P = Pools
  import PoolRuns
  import opened LocalOps
  import opened LocalRuns
  import opened LocalResults

  /** The two blocks and their slots. */
  datatype Four = Four(k: BlockKey, z: BlockKey, x: Slot, y: Slot)

  type Names = p: Four | p.k != p.z && p.x != p.y witness Four("k", "z", Slot("p", 0), Slot("p", 1))

  // -- The residencies along the way.

  function Times(id: nat, n: nat): multiset<nat> { multiset{}[id := n] }

  function Blocks(p: Names): map<nat, P.Block> { map[0 := P.Block(p.k, {p.x}), 1 := P.Block(p.z, {p.y})] }

  function Pool(p: Names, resident: map<BlockKey, nat>, claims: multiset<nat>, owner: map<Slot, nat>,
                free: multiset<Slot>,
                freeing: Option<nat>): P.Pool {
    P.Pool({p.x, p.y}, Blocks(p), map[0 := P.Filling, 1 := P.Filling], {}, resident, map key | key in resident :: None,
           map[], multiset{}, multiset{}, [], [], claims, {}, free, owner, freeing, [], [])
  }

  /** The first block alone, before the second is reserved. */
  function First(p: Names): P.Pool {
    Pool(p, map[p.k := 0], multiset{}, map[p.x := 0], multiset{p.y}, None)
      .(blocks := map[0 := P.Block(p.k, {p.x})], phase := map[0 := P.Filling])
  }

  /** Both blocks are being filled, with so many claims each. */
  function Both(p: Names, n: nat, m: nat): P.Pool {
    Pool(p, map[p.k := 0, p.z := 1], Times(0, n) + Times(1, m), map[p.x := 0, p.y := 1], multiset{}, None)
  }

  /** The second block has been given up; its slot is still to be freed, or is free. */
  function Leaving(p: Names, n: nat): P.Pool {
    Pool(p, map[p.k := 0], Times(0, n), map[p.x := 0, p.y := 1], multiset{}, Some(1))
  }

  function One(p: Names, n: nat): P.Pool { Pool(p, map[p.k := 0], Times(0, n), map[p.x := 0], multiset{p.y}, None) }

  /** ... and so has the first. */
  function LastLeaving(p: Names): P.Pool { Pool(p, map[], multiset{}, map[p.x := 0], multiset{p.y}, Some(0)) }

  function Nobody(p: Names): P.Pool { Pool(p, map[], multiset{}, map[], multiset{p.x, p.y}, None) }

  lemma FirstReserved(p: Names)
    ensures P.Enabled(PoolRuns.Empty({p.x, p.y}), P.Reserve(p.k, 0, {p.x}))
    ensures P.ApplyReserve(PoolRuns.Empty({p.x, p.y}), p.k, 0, {p.x}) == First(p)
  {
    var s := P.ApplyReserve(PoolRuns.Empty({p.x, p.y}), p.k, 0, {p.x});
    assert s.free == multiset{p.y};
    assert s.owner == map[p.x := 0];
    assert s.index == First(p).index;
  }

  lemma ReserveNames(p: Names)
    ensures var s, t := P.ApplyReserve(First(p), p.z, 1, {p.y}), Both(p, 0, 0);
      s.blocks == t.blocks && s.phase == t.phase && s.resident == t.resident && s.index == t.index
  {
  }

  lemma ReserveSlots(p: Names)
    ensures var s, t := P.ApplyReserve(First(p), p.z, 1, {p.y}), Both(p, 0, 0); s.free == t.free && s.owner == t.owner
  {
    var s := P.ApplyReserve(First(p), p.z, 1, {p.y});
    assert s.free == multiset{};
    assert s.owner == map[p.x := 0, p.y := 1];
  }

  lemma BothReserved(p: Names)
    ensures P.Enabled(First(p), P.Reserve(p.z, 1, {p.y})) && P.ApplyReserve(First(p), p.z, 1, {p.y}) == Both(p, 0, 0)
  {
    var s, t := P.ApplyReserve(First(p), p.z, 1, {p.y}), Both(p, 0, 0);
    assert s.blocks == t.blocks && s.phase == t.phase && s.resident == t.resident && s.index == t.index by {
      ReserveNames(p);
    }
    assert s.free == t.free && s.owner == t.owner by {
      ReserveSlots(p);
    }
    assert t.claims == multiset{};
  }

  lemma FirstClaimed(p: Names, n: nat, m: nat)
    ensures P.Enabled(Both(p, n, m), P.Claim(p.k)) && P.ApplyClaim(Both(p, n, m), p.k) == Both(p, n + 1, m)
  {
    assert Times(0, n) + Times(1, m) + multiset{0} == Times(0, n + 1) + Times(1, m);
  }

  lemma SecondClaimed(p: Names, n: nat)
    ensures P.Enabled(Both(p, n, 0), P.Claim(p.z)) && P.ApplyClaim(Both(p, n, 0), p.z) == Both(p, n, 1)
  {
    assert Times(0, n) + Times(1, 0) + multiset{1} == Times(0, n) + Times(1, 1);
  }

  lemma FirstUnclaimed(p: Names, n: nat, m: nat)
    requires n > 1
    ensures P.Enabled(Both(p, n, m), P.Unclaim(0)) && P.ApplyUnclaim(Both(p, n, m), 0) == Both(p, n - 1, m)
  {
    assert Times(0, n) + Times(1, m) - multiset{0} == Times(0, n - 1) + Times(1, m);
  }

  lemma SecondUnclaimed(p: Names, n: nat)
    ensures P.Enabled(Both(p, n, 1), P.Unclaim(1)) && P.ApplyUnclaim(Both(p, n, 1), 1) == Leaving(p, n)
  {
    var t := P.DropClaim(Both(p, n, 1), 1);
    assert t.claims == Times(0, n);
    assert t.resident - {p.z} == map[p.k := 0];
    assert t.index - {p.z} == Leaving(p, n).index;
    assert P.Withdrawn(t, 1) == Leaving(p, n);
  }

  lemma SecondFreed(p: Names, n: nat)
    ensures P.Enabled(Leaving(p, n), P.Free) && P.ApplyFree(Leaving(p, n)) == One(p, n)
  {
    assert Leaving(p, n).owner - {p.y} == map[p.x := 0];
    assert multiset({p.y}) == multiset{p.y};
  }

  lemma OneClaimed(p: Names, n: nat)
    ensures P.Enabled(One(p, n), P.Claim(p.k)) && P.ApplyClaim(One(p, n), p.k) == One(p, n + 1)
  {
    assert Times(0, n) + multiset{0} == Times(0, n + 1);
  }

  lemma OneUnclaimed(p: Names, n: nat)
    requires n > 1
    ensures P.Enabled(One(p, n), P.Unclaim(0)) && P.ApplyUnclaim(One(p, n), 0) == One(p, n - 1)
  {
    assert Times(0, n) - multiset{0} == Times(0, n - 1);
  }

  lemma LastUnclaimed(p: Names)
    ensures P.Enabled(One(p, 1), P.Unclaim(0)) && P.ApplyUnclaim(One(p, 1), 0) == LastLeaving(p)
  {
    assert Times(0, 1) - multiset{0} == multiset{};
    var t := P.DropClaim(One(p, 1), 0);
    assert t.resident - {p.k} == map[] && t.index - {p.k} == LastLeaving(p).index;
  }

  lemma LastFreed(p: Names)
    ensures P.Enabled(LastLeaving(p), P.Free) && P.ApplyFree(LastLeaving(p)) == Nobody(p)
  {
    assert LastLeaving(p).owner - {p.x} == map[];
    assert multiset{p.y} + multiset({p.x}) == multiset{p.x, p.y};
  }

  // -- The tables along the way: the delivery is operation 0, the deposit 1, the fetch 2.

  function Of(kind: Kind, keys: set<BlockKey>): Op { Op(kind, keys, map[], {}, {}, {}) }

  function Waits(kind: Kind, k: BlockKey): Op { Of(kind, {k}).(claimed := {k}) }

  function Failed(kind: Kind, k: BlockKey): Op { Of(kind, {k}).(results := map[k := false]) }

  function Deposits(p: Names, active: set<BlockKey>, results: map<BlockKey, bool>): Op {
    Of(Deposit, {p.k, p.z}).(active := active, results := results)
  }

  function InCopy(keys: set<BlockKey>): map<CopyId, Copy> { map[0 := Copy(1, false, keys, false, None)] }

  /** Nothing is handed out, and nothing is read by others. */
  function Open(ops: map<OpId, Op>, pending: set<OpId>, copies: map<CopyId, Copy>, fills: map<BlockKey, nat>,
                leaving: map<OpId, set<BlockKey>>, owed: multiset<OpId>, done: seq<Completion>): Tables {
    Tables(ops, pending, copies, map[], map[], fills, leaving, owed, done)
  }

  lemma Small(p: Names, none: set<BlockKey>)
    requires none == {}
    ensures none + {p.k} == {p.k} && {p.k} - {p.k} == none && {p.k} - none == {p.k}
    ensures {p.k} + {p.z} == {p.k, p.z} && {p.k, p.z} - {p.k} == {p.z} && {p.z} - {p.z} == none
    ensures multiset{0} + multiset{0} == multiset{0, 0} && multiset{0, 0} - multiset{0} == multiset{0}
  {
  }

  function S0(p: Names): Local { Start({p.x, p.y}) }

  function T1(p: Names): Tables {
    Open(map[2 := Of(Fetch, {p.k})],
         {2}, map[], map[], map[], multiset{}, [])
  }

  function S1(p: Names): Local { Local(PoolRuns.Empty({p.x, p.y}), T1(p)) }

  function S2(p: Names): Local { Local(First(p), T1(p)) }

  function S3(p: Names): Local { Local(Both(p, 0, 0), T1(p)) }

  function T4(p: Names): Tables {
    Open(map[1 := Deposits(p, {}, map[]), 2 := Of(Fetch, {p.k})],
         {1, 2}, map[], map[], map[], multiset{}, [])
  }

  function S4(p: Names): Local { Local(Both(p, 0, 0), T4(p)) }

  function T5(p: Names): Tables {
    Open(map[1 := Deposits(p, {p.k}, map[]), 2 := Of(Fetch, {p.k})],
         {1, 2}, InCopy({p.k}), map[], map[], multiset{}, [])
  }

  function S5(p: Names): Local { Local(Both(p, 1, 0), T5(p)) }

  function T6(p: Names): Tables {
    Open(map[1 := Deposits(p, {p.k, p.z}, map[]), 2 := Of(Fetch, {p.k})],
         {1, 2}, InCopy({p.k, p.z}), map[], map[], multiset{}, [])
  }

  function S6(p: Names): Local { Local(Both(p, 1, 1), T6(p)) }

  function T7(p: Names): Tables {
    Open(map[0 := Of(Deliver, {p.k}), 1 := Deposits(p, {p.k, p.z}, map[]), 2 := Of(Fetch, {p.k})],
         {0, 1, 2}, InCopy({p.k, p.z}), map[], map[], multiset{0}, [])
  }

  function S7(p: Names): Local { Local(Both(p, 1, 1), T7(p)) }

  function T8(p: Names): Tables {
    Open(map[0 := Waits(Deliver, p.k), 1 := Deposits(p, {p.k, p.z}, map[]), 2 := Of(Fetch, {p.k})],
         {0, 1, 2}, InCopy({p.k, p.z}), map[], map[], multiset{0}, [])
  }

  function S8(p: Names): Local { Local(Both(p, 2, 1), T8(p)) }

  function T9(p: Names): Tables {
    Open(map[0 := Waits(Deliver, p.k), 1 := Deposits(p, {p.k, p.z}, map[]), 2 := Of(Fetch, {p.k})],
         {0, 1, 2}, InCopy({p.k, p.z}), map[], map[], multiset{}, [])
  }

  function S9(p: Names): Local { Local(Both(p, 2, 1), T9(p)) }

  function T10(p: Names): Tables {
    Open(map[0 := Waits(Deliver, p.k), 1 := Deposits(p, {p.z}, map[p.k := false]), 2 := Of(Fetch, {p.k})],
         {0, 1, 2}, InCopy({p.z}), map[], map[], multiset{}, [])
  }

  function S10(p: Names): Local { Local(Both(p, 1, 1), T10(p)) }

  function T11(p: Names): Tables {
    Open(map[0 := Waits(Deliver, p.k), 1 := Deposits(p, {p.z}, map[p.k := false]), 2 := Of(Fetch, {p.k})],
         {0, 1, 2}, InCopy({p.z}), map[], map[], multiset{0}, [])
  }

  function S11(p: Names): Local { Local(Both(p, 1, 1), T11(p)) }

  function T12(p: Names): Tables {
    Open(map[0 := Waits(Deliver, p.k), 1 := Deposits(p, {}, map[p.k := false, p.z := false]), 2 := Of(Fetch, {p.k})],
         {0, 1, 2}, map[], map[], map[], multiset{0}, [])
  }

  function S12(p: Names): Local { Local(Leaving(p, 1), T12(p)) }

  function S13(p: Names): Local { Local(One(p, 1), T12(p)) }

  function T14(p: Names): Tables {
    Open(map[0 := Waits(Deliver, p.k), 1 := Deposits(p, {}, map[p.k := false, p.z := false]), 2 := Waits(Fetch, p.k)],
         {0, 1, 2}, map[], map[], map[], multiset{0}, [])
  }

  function S14(p: Names): Local { Local(One(p, 2), T14(p)) }

  function T15(p: Names): Tables {
    Open(map[0 := Waits(Deliver, p.k), 1 := Deposits(p, {}, map[p.k := false, p.z := false]),
             2 := Waits(Fetch, p.k).(asked := {p.k})],
         {0, 1, 2}, map[], map[p.k := 0], map[], multiset{0}, [])
  }

  function S15(p: Names): Local { Local(One(p, 3), T15(p)) }

  function T16(p: Names): Tables {
    Open(map[0 := Waits(Deliver, p.k), 1 := Deposits(p, {}, map[p.k := false, p.z := false]),
             2 := Failed(Fetch, p.k).(claimed := {p.k})],
         {0, 1, 2}, map[], map[], map[], multiset{0}, [])
  }

  function S16(p: Names): Local { Local(One(p, 2), T16(p)) }

  function T17(p: Names): Tables {
    Open(map[0 := Waits(Deliver, p.k), 1 := Deposits(p, {}, map[p.k := false, p.z := false]),
             2 := Failed(Fetch, p.k).(claimed := {p.k})],
         {0, 1, 2}, map[], map[], map[], multiset{0, 0}, [])
  }

  function S17(p: Names): Local { Local(One(p, 2), T17(p)) }

  function T18(p: Names): Tables {
    Open(map[0 := Waits(Deliver, p.k), 1 := Deposits(p, {}, map[p.k := false, p.z := false]), 2 := Failed(Fetch, p.k)],
         {0, 1}, map[], map[], map[2 := {p.k}], multiset{0, 0}, [])
  }

  function S18(p: Names): Local { Local(One(p, 2), T18(p)) }

  function T19(p: Names): Tables {
    Open(map[0 := Waits(Deliver, p.k), 1 := Deposits(p, {}, map[p.k := false, p.z := false]), 2 := Failed(Fetch, p.k)],
         {0, 1}, map[], map[], map[2 := {}], multiset{0, 0}, [])
  }

  function S19(p: Names): Local { Local(One(p, 1), T19(p)) }

  function T20(p: Names): Tables {
    Open(map[0 := Waits(Deliver, p.k), 1 := Deposits(p, {}, map[p.k := false, p.z := false]), 2 := Failed(Fetch, p.k)],
         {0, 1}, map[], map[], map[], multiset{0, 0}, [Completion(2, map[p.k := false])])
  }

  function S20(p: Names): Local { Local(One(p, 1), T20(p)) }

  function T21(p: Names): Tables {
    Open(map[0 := Failed(Deliver, p.k).(claimed := {p.k}), 1 := Deposits(p, {}, map[p.k := false, p.z := false]),
             2 := Failed(Fetch, p.k)],
         {0, 1}, map[], map[], map[], multiset{0, 0}, [Completion(2, map[p.k := false])])
  }

  function S21(p: Names): Local { Local(One(p, 1), T21(p)) }

  function T22(p: Names): Tables {
    Open(map[0 := Failed(Deliver, p.k), 1 := Deposits(p, {}, map[p.k := false, p.z := false]), 2 := Failed(Fetch, p.k)],
         {1}, map[], map[], map[0 := {p.k}], multiset{0}, [Completion(2, map[p.k := false])])
  }

  function S22(p: Names): Local { Local(One(p, 1), T22(p)) }

  function T23(p: Names): Tables {
    Open(map[0 := Failed(Deliver, p.k), 1 := Deposits(p, {}, map[p.k := false, p.z := false]), 2 := Failed(Fetch, p.k)],
         {1}, map[], map[], map[0 := {}], multiset{0}, [Completion(2, map[p.k := false])])
  }

  function S23(p: Names): Local { Local(LastLeaving(p), T23(p)) }

  function S24(p: Names): Local { Local(Nobody(p), T23(p)) }

  function T25(p: Names): Tables {
    Open(map[0 := Failed(Deliver, p.k), 1 := Deposits(p, {}, map[p.k := false, p.z := false]), 2 := Failed(Fetch, p.k)],
         {1}, map[], map[], map[], multiset{0}, [Completion(2, map[p.k := false]), Completion(0, map[p.k := false])])
  }

  function S25(p: Names): Local { Local(Nobody(p), T25(p)) }

  // -- The run, from its end to its start.

  function Rest25(p: Names): seq<Move> { [OnTables(Complete(0))] + [] }

  lemma Table25(p: Names)
    ensures LocalOps.Enabled(T23(p), Complete(0)) && LocalOps.Apply(T23(p), Complete(0)) == T25(p)
  {
    Small(p, {});
    assert T23(p).leaving - {0} == map[];
  }

  lemma From25(p: Names)
    ensures Leads(S24(p), Rest25(p), S25(p))
  {
    Table25(p);
    LeadsNowhere(S25(p));
    Then(S24(p), OnTables(Complete(0)), S25(p), [], S25(p));
  }

  function Rest24(p: Names): seq<Move> { [OnPool(P.Free)] + Rest25(p) }

  lemma From24(p: Names)
    ensures Leads(S23(p), Rest24(p), S25(p))
  {
    LastFreed(p);
    From25(p);
    Then(S23(p), OnPool(P.Free), S24(p), Rest25(p), S25(p));
  }

  function Rest23(p: Names): seq<Move> { [OnTables(GiveBack(0, p.k))] + Rest24(p) }

  lemma Table23(p: Names)
    ensures LocalOps.Enabled(T22(p), GiveBack(0, p.k)) && LocalOps.Apply(T22(p), GiveBack(0, p.k)) == T23(p)
  {
    Small(p, {});
  }

  lemma From23(p: Names)
    ensures Leads(S22(p), Rest23(p), S25(p))
  {
    Table23(p);
    LastUnclaimed(p);
    From24(p);
    Then(S22(p), OnTables(GiveBack(0, p.k)), S23(p), Rest24(p), S25(p));
  }

  function Rest22(p: Names): seq<Move> { [OnTables(ComeBack(0))] + Rest23(p) }

  lemma Table22(p: Names)
    ensures LocalOps.Enabled(T21(p), ComeBack(0)) && LocalOps.Apply(T21(p), ComeBack(0)) == T22(p)
  {
    Small(p, {});
    assert T21(p).ops[0].results.Keys == {p.k};
  }

  lemma From22(p: Names)
    ensures Leads(S21(p), Rest22(p), S25(p))
  {
    Table22(p);
    From23(p);
    Then(S21(p), OnTables(ComeBack(0)), S22(p), Rest23(p), S25(p));
  }

  function Rest21(p: Names): seq<Move> { [OnTables(Settle(0, p.k, false))] + Rest22(p) }

  lemma Table21(p: Names)
    ensures LocalOps.Enabled(T20(p), Settle(0, p.k, false)) && LocalOps.Apply(T20(p), Settle(0, p.k, false)) == T21(p)
  {
    Small(p, {});
  }

  lemma From21(p: Names)
    ensures Leads(S20(p), Rest21(p), S25(p))
  {
    Table21(p);
    From22(p);
    Then(S20(p), OnTables(Settle(0, p.k, false)), S21(p), Rest22(p), S25(p));
  }

  function Rest20(p: Names): seq<Move> { [OnTables(Complete(2))] + Rest21(p) }

  lemma Table20(p: Names)
    ensures LocalOps.Enabled(T19(p), Complete(2)) && LocalOps.Apply(T19(p), Complete(2)) == T20(p)
  {
    Small(p, {});
    assert T19(p).leaving - {2} == map[];
  }

  lemma From20(p: Names)
    ensures Leads(S19(p), Rest20(p), S25(p))
  {
    Table20(p);
    From21(p);
    Then(S19(p), OnTables(Complete(2)), S20(p), Rest21(p), S25(p));
  }

  function Rest19(p: Names): seq<Move> { [OnTables(GiveBack(2, p.k))] + Rest20(p) }

  lemma Table19(p: Names)
    ensures LocalOps.Enabled(T18(p), GiveBack(2, p.k)) && LocalOps.Apply(T18(p), GiveBack(2, p.k)) == T19(p)
  {
    Small(p, {});
  }

  lemma From19(p: Names)
    ensures Leads(S18(p), Rest19(p), S25(p))
  {
    Table19(p);
    OneUnclaimed(p, 2);
    From20(p);
    Then(S18(p), OnTables(GiveBack(2, p.k)), S19(p), Rest20(p), S25(p));
  }

  function Rest18(p: Names): seq<Move> { [OnTables(Finish(2))] + Rest19(p) }

  lemma Table18(p: Names)
    ensures LocalOps.Enabled(T17(p), Finish(2)) && LocalOps.Apply(T17(p), Finish(2)) == T18(p)
  {
    Small(p, {});
    assert T17(p).ops[2].results.Keys == {p.k};
  }

  lemma From18(p: Names)
    ensures Leads(S17(p), Rest18(p), S25(p))
  {
    Table18(p);
    From19(p);
    Then(S17(p), OnTables(Finish(2)), S18(p), Rest19(p), S25(p));
  }

  function Rest17(p: Names): seq<Move> { [OnTables(Collect(0))] + Rest18(p) }

  lemma From17(p: Names)
    ensures Leads(S16(p), Rest17(p), S25(p))
  {
    Small(p, {});
    assert LocalOps.Apply(T16(p), Collect(0)) == T17(p);
    From18(p);
    Then(S16(p), OnTables(Collect(0)), S17(p), Rest18(p), S25(p));
  }

  function Rest16(p: Names): seq<Move> { [OnTables(EndFill(p.k, false))] + Rest17(p) }

  lemma Table16(p: Names)
    ensures LocalOps.Enabled(T15(p), EndFill(p.k, false)) && LocalOps.Apply(T15(p), EndFill(p.k, false)) == T16(p)
  {
    Small(p, {});
    assert T15(p).fills - {p.k} == map[];
    assert Told(T15(p), p.k, false) == T16(p).ops;
  }

  lemma From16(p: Names)
    ensures Leads(S15(p), Rest16(p), S25(p))
  {
    Table16(p);
    OneUnclaimed(p, 3);
    From17(p);
    Then(S15(p), OnTables(EndFill(p.k, false)), S16(p), Rest17(p), S25(p));
  }

  function Rest15(p: Names): seq<Move> { [OnTables(StartFill(2, p.k, 0))] + Rest16(p) }

  lemma Table15(p: Names)
    ensures LocalOps.Enabled(T14(p), StartFill(2, p.k, 0)) && LocalOps.Apply(T14(p), StartFill(2, p.k, 0)) == T15(p)
  {
    Small(p, {});
  }

  lemma From15(p: Names)
    ensures Leads(S14(p), Rest15(p), S25(p))
  {
    Table15(p);
    OneClaimed(p, 2);
    From16(p);
    Then(S14(p), OnTables(StartFill(2, p.k, 0)), S15(p), Rest16(p), S25(p));
  }

  function Rest14(p: Names): seq<Move> { [OnTables(Await(2, p.k))] + Rest15(p) }

  lemma Table14(p: Names)
    ensures LocalOps.Enabled(T12(p), Await(2, p.k)) && LocalOps.Apply(T12(p), Await(2, p.k)) == T14(p)
  {
    Small(p, {});
  }

  lemma From14(p: Names)
    ensures Leads(S13(p), Rest14(p), S25(p))
  {
    Table14(p);
    OneClaimed(p, 1);
    From15(p);
    Then(S13(p), OnTables(Await(2, p.k)), S14(p), Rest15(p), S25(p));
  }

  function Rest13(p: Names): seq<Move> { [OnPool(P.Free)] + Rest14(p) }

  lemma From13(p: Names)
    ensures Leads(S12(p), Rest13(p), S25(p))
  {
    SecondFreed(p, 1);
    From14(p);
    Then(S12(p), OnPool(P.Free), S13(p), Rest14(p), S25(p));
  }

  function Rest12(p: Names): seq<Move> { [OnTables(EndDeposit(0, p.z, false))] + Rest13(p) }

  lemma Table12(p: Names)
    ensures LocalOps.Enabled(T11(p), EndDeposit(0, p.z, false))
    ensures LocalOps.Apply(T11(p), EndDeposit(0, p.z, false)) == T12(p)
  {
    Small(p, {});
    assert InCopy({p.z}) - {0} == map[];
  }

  lemma From12(p: Names)
    ensures Leads(S11(p), Rest12(p), S25(p))
  {
    Table12(p);
    SecondUnclaimed(p, 1);
    From13(p);
    Then(S11(p), OnTables(EndDeposit(0, p.z, false)), S12(p), Rest13(p), S25(p));
  }

  function Rest11(p: Names): seq<Move> { [OnTables(Collect(0))] + Rest12(p) }

  lemma Table11(p: Names)
    ensures LocalOps.Enabled(T10(p), Collect(0)) && LocalOps.Apply(T10(p), Collect(0)) == T11(p)
  {
    Small(p, {});
  }

  lemma From11(p: Names)
    ensures Leads(S10(p), Rest11(p), S25(p))
  {
    Table11(p);
    From12(p);
    Then(S10(p), OnTables(Collect(0)), S11(p), Rest12(p), S25(p));
  }

  function Rest10(p: Names): seq<Move> { [OnTables(EndDeposit(0, p.k, false))] + Rest11(p) }

  lemma Table10(p: Names)
    ensures LocalOps.Enabled(T9(p), EndDeposit(0, p.k, false))
    ensures LocalOps.Apply(T9(p), EndDeposit(0, p.k, false)) == T10(p)
  {
    Small(p, {});
  }

  lemma From10(p: Names)
    ensures Leads(S9(p), Rest10(p), S25(p))
  {
    Table10(p);
    FirstUnclaimed(p, 2, 1);
    From11(p);
    Then(S9(p), OnTables(EndDeposit(0, p.k, false)), S10(p), Rest11(p), S25(p));
  }

  function Rest9(p: Names): seq<Move> { [OnTables(ComeBack(0))] + Rest10(p) }

  lemma From9(p: Names)
    ensures Leads(S8(p), Rest9(p), S25(p))
  {
    Small(p, {});
    assert LocalOps.Apply(T8(p), ComeBack(0)) == T9(p);
    From10(p);
    Then(S8(p), OnTables(ComeBack(0)), S9(p), Rest10(p), S25(p));
  }

  function Rest8(p: Names): seq<Move> { [OnTables(Await(0, p.k))] + Rest9(p) }

  lemma Table8(p: Names)
    ensures LocalOps.Enabled(T7(p), Await(0, p.k)) && LocalOps.Apply(T7(p), Await(0, p.k)) == T8(p)
  {
    Small(p, {});
  }

  lemma From8(p: Names)
    ensures Leads(S7(p), Rest8(p), S25(p))
  {
    Table8(p);
    FirstClaimed(p, 1, 1);
    From9(p);
    Then(S7(p), OnTables(Await(0, p.k)), S8(p), Rest9(p), S25(p));
  }

  function Rest7(p: Names): seq<Move> { [OnTables(Begin(0, Deliver, {p.k}))] + Rest8(p) }

  lemma Table7(p: Names)
    ensures LocalOps.Enabled(T6(p), Begin(0, Deliver, {p.k}))
    ensures LocalOps.Apply(T6(p), Begin(0, Deliver, {p.k})) == T7(p)
  {
    Small(p, {});
  }

  lemma From7(p: Names)
    ensures Leads(S6(p), Rest7(p), S25(p))
  {
    Table7(p);
    From8(p);
    Then(S6(p), OnTables(Begin(0, Deliver, {p.k})), S7(p), Rest8(p), S25(p));
  }

  function Rest6(p: Names): seq<Move> { [OnTables(StartDeposit(1, p.z, 0))] + Rest7(p) }

  lemma Table6(p: Names)
    ensures LocalOps.Enabled(T5(p), StartDeposit(1, p.z, 0)) && LocalOps.Apply(T5(p), StartDeposit(1, p.z, 0)) == T6(p)
  {
    Small(p, {});
  }

  lemma From6(p: Names)
    ensures Leads(S5(p), Rest6(p), S25(p))
  {
    Table6(p);
    SecondClaimed(p, 1);
    From7(p);
    Then(S5(p), OnTables(StartDeposit(1, p.z, 0)), S6(p), Rest7(p), S25(p));
  }

  function Rest5(p: Names): seq<Move> { [OnTables(StartDeposit(1, p.k, 0))] + Rest6(p) }

  lemma Table5(p: Names)
    ensures LocalOps.Enabled(T4(p), StartDeposit(1, p.k, 0)) && LocalOps.Apply(T4(p), StartDeposit(1, p.k, 0)) == T5(p)
  {
    Small(p, {});
  }

  lemma From5(p: Names)
    ensures Leads(S4(p), Rest5(p), S25(p))
  {
    Table5(p);
    FirstClaimed(p, 0, 0);
    From6(p);
    Then(S4(p), OnTables(StartDeposit(1, p.k, 0)), S5(p), Rest6(p), S25(p));
  }

  function Rest4(p: Names): seq<Move> { [OnTables(Begin(1, Deposit, {p.k, p.z}))] + Rest5(p) }

  lemma From4(p: Names)
    ensures Leads(S3(p), Rest4(p), S25(p))
  {
    Small(p, {});
    assert LocalOps.Apply(T1(p), Begin(1, Deposit, {p.k, p.z})) == T4(p);
    From5(p);
    Then(S3(p), OnTables(Begin(1, Deposit, {p.k, p.z})), S4(p), Rest5(p), S25(p));
  }

  function Rest3(p: Names): seq<Move> { [OnPool(P.Reserve(p.z, 1, {p.y}))] + Rest4(p) }

  lemma From3(p: Names)
    ensures Leads(S2(p), Rest3(p), S25(p))
  {
    BothReserved(p);
    From4(p);
    Then(S2(p), OnPool(P.Reserve(p.z, 1, {p.y})), S3(p), Rest4(p), S25(p));
  }

  function Rest2(p: Names): seq<Move> { [OnPool(P.Reserve(p.k, 0, {p.x}))] + Rest3(p) }

  lemma From2(p: Names)
    ensures Leads(S1(p), Rest2(p), S25(p))
  {
    FirstReserved(p);
    From3(p);
    Then(S1(p), OnPool(P.Reserve(p.k, 0, {p.x})), S2(p), Rest3(p), S25(p));
  }

  function Rest1(p: Names): seq<Move> { [OnTables(Begin(2, Fetch, {p.k}))] + Rest2(p) }

  lemma From1(p: Names)
    ensures Leads(S0(p), Rest1(p), S25(p))
  {
    Small(p, {});
    assert LocalOps.Apply(NOTHING, Begin(2, Fetch, {p.k})) == T1(p);
    From2(p);
    Then(S0(p), OnTables(Begin(2, Fetch, {p.k})), S1(p), Rest2(p), S25(p));
  }

  /** The deposit's frame comes back to a delivery that has completed: it is no longer in the table
      of pending deliveries, and taking it out of there raises. */
  lemma ReturnFails(p: Names)
    ensures CanRun(Start({p.x, p.y}), Rest1(p))
    ensures var s := After(Start({p.x, p.y}), Rest1(p));
      && LocalRuns.Offered(s, OnTables(ComeBack(0))) && !LocalRuns.Works(s, OnTables(ComeBack(0)))
      && Completion(0, map[p.k := false]) in s.t.done
  {
    From1(p);
    var s := S25(p);
    assert CanRun(s, []) && After(s, []) == s && Rest1(p) + [] == Rest1(p);
    assert T25(p).ops[0].results.Keys == {p.k};
    assert T25(p).done[1] == Completion(0, map[p.k := false]);
  }
}
