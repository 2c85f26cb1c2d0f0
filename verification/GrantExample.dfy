/**
 A run in which a fetch is granted a block and is then told that it failed. The fetch asks for two
 blocks and starts a remote fill of the first. Meanwhile a deposit, which may write pieces that
 a fill is writing too (src/kvcr/backends/local_dram.py:350), writes that block, and the fetch is
 granted it. While the fetch still waits for the second block, its own fill of the first fails,
 and that overwrites the result (local_dram.py:714-721). The fetch completes as failed, and the
 claim it was granted stays.
 */
module GrantExample {
  import opened Prelude
  import P = Pools
  import PoolRuns
  import opened LocalOps
  import opened LocalRuns
  import opened LocalResults
  import LocalOutcomes

  datatype Three = Three(k: BlockKey, z: BlockKey, x: Slot)

  type Names = p: Three | p.k != p.z witness Three("k", "z", Slot("p", 0))

  // -- The residency of the first block, with so many claims.

  function Times(n: nat): multiset<nat> { multiset{}[0 := n] }

  function Held(p: Names, phase: P.Phase, n: nat): P.Pool {
    P.Pool({p.x}, map[0 := P.Block(p.k, {p.x})], map[0 := phase], {}, map[p.k := 0], map[p.k := None], map[],
           multiset{}, multiset{}, [], [], Times(n), {}, multiset{}, map[p.x := 0], None, [], [])
  }

  lemma Reserved(p: Names)
    ensures P.Enabled(PoolRuns.Empty({p.x}), P.Reserve(p.k, 0, {p.x}))
    ensures P.ApplyReserve(PoolRuns.Empty({p.x}), p.k, 0, {p.x}) == Held(p, P.Filling, 0)
  {
    var s := P.ApplyReserve(PoolRuns.Empty({p.x}), p.k, 0, {p.x});
    assert s.free == multiset{} && s.owner == map[p.x := 0];
  }

  lemma Claimed(p: Names, phase: P.Phase, n: nat)
    requires phase != P.Discarding
    ensures P.Enabled(Held(p, phase, n), P.Claim(p.k)) && P.ApplyClaim(Held(p, phase, n), p.k) == Held(p, phase, n + 1)
  {
    assert Times(n) + multiset{0} == Times(n + 1);
  }

  lemma Unclaimed(p: Names, phase: P.Phase, n: nat)
    requires n > 1
    ensures P.Enabled(Held(p, phase, n), P.Unclaim(0)) && P.ApplyUnclaim(Held(p, phase, n), 0) == Held(p, phase, n - 1)
  {
    assert Times(n) - multiset{0} == Times(n - 1);
  }

  lemma Filled(p: Names, n: nat)
    requires n > 0
    ensures P.Enabled(Held(p, P.Filling, n), P.Fill(0, P.Complete))
    ensures P.ApplyFill(Held(p, P.Filling, n), 0, P.Complete) == Held(p, P.Complete, n)
  {
  }

  // -- The tables along the way: the fetch is operation 0, the deposit 1.

  function Fetches(p: Names, results: map<BlockKey, bool>, claimed: set<BlockKey>, asked: set<BlockKey>): Op {
    Op(Fetch, {p.k, p.z}, results, {}, claimed, asked)
  }

  function Deposits(p: Names, results: map<BlockKey, bool>, active: set<BlockKey>): Op {
    Op(Deposit, {p.k}, results, active, {}, {})
  }

  lemma Small(p: Names, none: set<BlockKey>)
    requires none == {}
    ensures none + {p.k} == {p.k} && {p.k} - {p.k} == none && {p.k, p.z} - none == {p.k, p.z}
  {
  }

  function S0(p: Names): Local { Start({p.x}) }

  function S1(p: Names): Local { Local(Held(p, P.Filling, 0), NOTHING) }

  function T2(p: Names): Tables {
    Tables(map[0 := Fetches(p, map[], {}, {})], {0}, map[], map[], map[], map[], map[], multiset{}, [])
  }

  function S2(p: Names): Local { Local(Held(p, P.Filling, 0), T2(p)) }

  function T3(p: Names): Tables {
    Tables(map[0 := Fetches(p, map[], {p.k}, {})], {0}, map[], map[], map[], map[], map[], multiset{}, [])
  }

  function S3(p: Names): Local { Local(Held(p, P.Filling, 1), T3(p)) }

  function T4(p: Names): Tables {
    Tables(map[0 := Fetches(p, map[], {p.k}, {p.k})], {0}, map[], map[], map[], map[p.k := 0], map[], multiset{}, [])
  }

  function S4(p: Names): Local { Local(Held(p, P.Filling, 2), T4(p)) }

  function T5(p: Names): Tables {
    Tables(map[0 := Fetches(p, map[], {p.k}, {p.k}), 1 := Deposits(p, map[], {})], {0, 1}, map[], map[], map[],
           map[p.k := 0], map[], multiset{}, [])
  }

  function S5(p: Names): Local { Local(Held(p, P.Filling, 2), T5(p)) }

  function T6(p: Names): Tables {
    Tables(map[0 := Fetches(p, map[], {p.k}, {p.k}), 1 := Deposits(p, map[], {p.k})], {0, 1},
           map[0 := Copy(1, false, {p.k}, false, None)], map[], map[], map[p.k := 0], map[], multiset{}, [])
  }

  function S6(p: Names): Local { Local(Held(p, P.Filling, 3), T6(p)) }

  function S7(p: Names): Local { Local(Held(p, P.Complete, 3), T6(p)) }

  function T8(p: Names): Tables {
    Tables(map[0 := Fetches(p, map[], {p.k}, {p.k}), 1 := Deposits(p, map[p.k := true], {})], {0, 1}, map[], map[],
           map[], map[p.k := 0], map[], multiset{}, [])
  }

  function S8(p: Names): Local { Local(Held(p, P.Complete, 2), T8(p)) }

  function T9(p: Names): Tables {
    Tables(map[0 := Fetches(p, map[p.k := true], {p.k}, {p.k}), 1 := Deposits(p, map[p.k := true], {})], {0, 1}, map[],
           map[0 := Entry(p.k, 0)], map[], map[p.k := 0], map[], multiset{}, [])
  }

  function S9(p: Names): Local { Local(Held(p, P.Complete, 3), T9(p)) }

  function T10(p: Names): Tables {
    Tables(map[0 := Fetches(p, map[p.k := false], {p.k}, {}), 1 := Deposits(p, map[p.k := true], {})], {0, 1}, map[],
           map[0 := Entry(p.k, 0)], map[], map[], map[], multiset{}, [])
  }

  function S10(p: Names): Local { Local(Held(p, P.Complete, 2), T10(p)) }

  function T11(p: Names): Tables {
    Tables(map[0 := Fetches(p, map[p.k := false, p.z := false], {p.k}, {}), 1 := Deposits(p, map[p.k := true], {})],
           {0, 1}, map[], map[0 := Entry(p.k, 0)], map[], map[], map[], multiset{}, [])
  }

  function S11(p: Names): Local { Local(Held(p, P.Complete, 2), T11(p)) }

  function T12(p: Names): Tables {
    Tables(map[0 := Fetches(p, map[p.k := false, p.z := false], {}, {}), 1 := Deposits(p, map[p.k := true], {})], {1},
           map[], map[0 := Entry(p.k, 0)], map[], map[], map[0 := {p.k}], multiset{}, [])
  }

  function S12(p: Names): Local { Local(Held(p, P.Complete, 2), T12(p)) }

  function T13(p: Names): Tables {
    Tables(map[0 := Fetches(p, map[p.k := false, p.z := false], {}, {}), 1 := Deposits(p, map[p.k := true], {})], {1},
           map[], map[0 := Entry(p.k, 0)], map[], map[], map[0 := {}], multiset{}, [])
  }

  function S13(p: Names): Local { Local(Held(p, P.Complete, 1), T13(p)) }

  function T14(p: Names): Tables {
    Tables(map[0 := Fetches(p, map[p.k := false, p.z := false], {}, {}), 1 := Deposits(p, map[p.k := true], {})], {1},
           map[], map[0 := Entry(p.k, 0)], map[], map[], map[], multiset{}, [Completion(0,
                                                                                        map[p.k := false,
                                                                                            p.z := false])])
  }

  function S14(p: Names): Local { Local(Held(p, P.Complete, 1), T14(p)) }

  lemma {:induction false} MovedIsTaken(moves: seq<Move>, step: Step)
    requires OnTables(step) in moves
    ensures step in StepsOf(moves)
  {
    if moves[0] != OnTables(step) {
      MovedIsTaken(moves[1..], step);
    }
  }

  // -- The run, from its end to its start.

  function Rest14(p: Names): seq<Move> { [OnTables(Complete(0))] + [] }

  lemma Table14(p: Names)
    ensures LocalOps.Enabled(T13(p), Complete(0)) && LocalOps.Apply(T13(p), Complete(0)) == T14(p)
  {
    Small(p, {});
    assert T13(p).leaving - {0} == map[];
  }

  lemma From14(p: Names)
    ensures Leads(S13(p), Rest14(p), S14(p))
  {
    Table14(p);
    LeadsNowhere(S14(p));
    Then(S13(p), OnTables(Complete(0)), S14(p), [], S14(p));
  }

  function Rest13(p: Names): seq<Move> { [OnTables(GiveBack(0, p.k))] + Rest14(p) }

  lemma Table13(p: Names)
    ensures LocalOps.Enabled(T12(p), GiveBack(0, p.k)) && LocalOps.Apply(T12(p), GiveBack(0, p.k)) == T13(p)
  {
    Small(p, {});
  }

  lemma From13(p: Names)
    ensures Leads(S12(p), Rest13(p), S14(p))
  {
    Table13(p);
    Unclaimed(p, P.Complete, 2);
    From14(p);
    Then(S12(p), OnTables(GiveBack(0, p.k)), S13(p), Rest14(p), S14(p));
  }

  function Rest12(p: Names): seq<Move> { [OnTables(Finish(0))] + Rest13(p) }

  lemma Table12(p: Names)
    ensures LocalOps.Enabled(T11(p), Finish(0)) && LocalOps.Apply(T11(p), Finish(0)) == T12(p)
  {
    Small(p, {});
    assert T11(p).ops[0].results.Keys == {p.k, p.z};
  }

  lemma From12(p: Names)
    ensures Leads(S11(p), Rest12(p), S14(p))
  {
    Table12(p);
    From13(p);
    Then(S11(p), OnTables(Finish(0)), S12(p), Rest13(p), S14(p));
  }

  function Rest11(p: Names): seq<Move> { [OnTables(Settle(0, p.z, false))] + Rest12(p) }

  lemma Table11(p: Names)
    ensures LocalOps.Enabled(T10(p), Settle(0, p.z, false)) && LocalOps.Apply(T10(p), Settle(0, p.z, false)) == T11(p)
  {
    Small(p, {});
  }

  lemma From11(p: Names)
    ensures Leads(S10(p), Rest11(p), S14(p))
  {
    Table11(p);
    From12(p);
    Then(S10(p), OnTables(Settle(0, p.z, false)), S11(p), Rest12(p), S14(p));
  }

  function Rest10(p: Names): seq<Move> { [OnTables(EndFill(p.k, false))] + Rest11(p) }

  lemma Table10(p: Names)
    ensures LocalOps.Enabled(T9(p), EndFill(p.k, false)) && LocalOps.Apply(T9(p), EndFill(p.k, false)) == T10(p)
  {
    Small(p, {});
    assert T9(p).fills - {p.k} == map[];
    assert T9(p).ops[0].results[p.k := false] == map[p.k := false];
    assert Told(T9(p), p.k, false) == T10(p).ops;
  }

  lemma From10(p: Names)
    ensures Leads(S9(p), Rest10(p), S14(p))
  {
    Table10(p);
    Unclaimed(p, P.Complete, 3);
    From11(p);
    Then(S9(p), OnTables(EndFill(p.k, false)), S10(p), Rest11(p), S14(p));
  }

  function Rest9(p: Names): seq<Move> { [OnTables(Grant(0, p.k, 0, 0))] + Rest10(p) }

  lemma Table9(p: Names)
    ensures LocalOps.Enabled(T8(p), Grant(0, p.k, 0, 0)) && LocalOps.Apply(T8(p), Grant(0, p.k, 0, 0)) == T9(p)
  {
    Small(p, {});
  }

  lemma From9(p: Names)
    ensures Leads(S8(p), Rest9(p), S14(p))
  {
    Table9(p);
    Claimed(p, P.Complete, 2);
    From10(p);
    Then(S8(p), OnTables(Grant(0, p.k, 0, 0)), S9(p), Rest10(p), S14(p));
  }

  function Rest8(p: Names): seq<Move> { [OnTables(EndDeposit(0, p.k, true))] + Rest9(p) }

  lemma Table8(p: Names)
    ensures LocalOps.Enabled(T6(p), EndDeposit(0, p.k, true))
    ensures LocalOps.Apply(T6(p), EndDeposit(0, p.k, true)) == T8(p)
  {
    Small(p, {});
    assert T6(p).copies - {0} == map[];
  }

  lemma From8(p: Names)
    ensures Leads(S7(p), Rest8(p), S14(p))
  {
    Table8(p);
    Unclaimed(p, P.Complete, 3);
    From9(p);
    Then(S7(p), OnTables(EndDeposit(0, p.k, true)), S8(p), Rest9(p), S14(p));
  }

  function Rest7(p: Names): seq<Move> { [OnPool(P.Fill(0, P.Complete))] + Rest8(p) }

  lemma From7(p: Names)
    ensures Leads(S6(p), Rest7(p), S14(p))
  {
    Filled(p, 3);
    From8(p);
    Then(S6(p), OnPool(P.Fill(0, P.Complete)), S7(p), Rest8(p), S14(p));
  }

  function Rest6(p: Names): seq<Move> { [OnTables(StartDeposit(1, p.k, 0))] + Rest7(p) }

  lemma Table6(p: Names)
    ensures LocalOps.Enabled(T5(p), StartDeposit(1, p.k, 0)) && LocalOps.Apply(T5(p), StartDeposit(1, p.k, 0)) == T6(p)
  {
    Small(p, {});
  }

  lemma From6(p: Names)
    ensures Leads(S5(p), Rest6(p), S14(p))
  {
    Table6(p);
    Claimed(p, P.Filling, 2);
    From7(p);
    Then(S5(p), OnTables(StartDeposit(1, p.k, 0)), S6(p), Rest7(p), S14(p));
  }

  function Rest5(p: Names): seq<Move> { [OnTables(Begin(1, Deposit, {p.k}))] + Rest6(p) }

  lemma Table5(p: Names)
    ensures LocalOps.Enabled(T4(p), Begin(1, Deposit, {p.k}))
    ensures LocalOps.Apply(T4(p), Begin(1, Deposit, {p.k})) == T5(p)
  {
    Small(p, {});
  }

  lemma From5(p: Names)
    ensures Leads(S4(p), Rest5(p), S14(p))
  {
    Table5(p);
    From6(p);
    Then(S4(p), OnTables(Begin(1, Deposit, {p.k})), S5(p), Rest6(p), S14(p));
  }

  function Rest4(p: Names): seq<Move> { [OnTables(StartFill(0, p.k, 0))] + Rest5(p) }

  lemma Table4(p: Names)
    ensures LocalOps.Enabled(T3(p), StartFill(0, p.k, 0)) && LocalOps.Apply(T3(p), StartFill(0, p.k, 0)) == T4(p)
  {
    Small(p, {});
  }

  lemma From4(p: Names)
    ensures Leads(S3(p), Rest4(p), S14(p))
  {
    Table4(p);
    Claimed(p, P.Filling, 1);
    From5(p);
    Then(S3(p), OnTables(StartFill(0, p.k, 0)), S4(p), Rest5(p), S14(p));
  }

  function Rest3(p: Names): seq<Move> { [OnTables(Await(0, p.k))] + Rest4(p) }

  lemma Table3(p: Names)
    ensures LocalOps.Enabled(T2(p), Await(0, p.k)) && LocalOps.Apply(T2(p), Await(0, p.k)) == T3(p)
  {
    Small(p, {});
  }

  lemma From3(p: Names)
    ensures Leads(S2(p), Rest3(p), S14(p))
  {
    Table3(p);
    Claimed(p, P.Filling, 0);
    From4(p);
    Then(S2(p), OnTables(Await(0, p.k)), S3(p), Rest4(p), S14(p));
  }

  function Rest2(p: Names): seq<Move> { [OnTables(Begin(0, Fetch, {p.k, p.z}))] + Rest3(p) }

  lemma Table2(p: Names)
    ensures LocalOps.Enabled(NOTHING, Begin(0, Fetch, {p.k, p.z}))
    ensures LocalOps.Apply(NOTHING, Begin(0, Fetch, {p.k, p.z})) == T2(p)
  {
    Small(p, {});
    assert NOTHING.pending + {0} == {0};
  }

  lemma From2(p: Names)
    ensures Leads(S1(p), Rest2(p), S14(p))
  {
    Table2(p);
    From3(p);
    Then(S1(p), OnTables(Begin(0, Fetch, {p.k, p.z})), S2(p), Rest3(p), S14(p));
  }

  function Rest1(p: Names): seq<Move> { [OnPool(P.Reserve(p.k, 0, {p.x}))] + Rest2(p) }

  lemma From1(p: Names)
    ensures Leads(S0(p), Rest1(p), S14(p))
  {
    Reserved(p);
    From2(p);
    Then(S0(p), OnPool(P.Reserve(p.k, 0, {p.x})), S1(p), Rest2(p), S14(p));
  }

  /** The fetch was granted the block and holds a claim on it, and has completed as failed. */
  lemma GrantedButFailed(p: Names)
    ensures CanRun(Start({p.x}), Rest1(p))
    ensures var t := After(Start({p.x}), Rest1(p)).t;
      && (exists n: nat :: LocalOutcomes.GrantedAt(StepsOf(Rest1(p)), n, 0, p.k))
      && Completion(0, map[p.k := false, p.z := false]) in t.done && t.public == map[0 := Entry(p.k, 0)]
  {
    From1(p);
    assert CanRun(S14(p), []) && After(S14(p), []) == S14(p) && Rest1(p) + [] == Rest1(p);
    assert T14(p).done[0] == Completion(0, map[p.k := false, p.z := false]);
    var grant := Grant(0, p.k, 0, 0);
    assert OnTables(grant) in Rest9(p) && OnTables(grant) in Rest5(p) && OnTables(grant) in Rest1(p);
    MovedIsTaken(Rest1(p), grant);
    var n :| 0 <= n < |StepsOf(Rest1(p))| && StepsOf(Rest1(p))[n] == grant;
    assert LocalOutcomes.GrantedAt(StepsOf(Rest1(p)), n, 0, p.k);
  }
}
