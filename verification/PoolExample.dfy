/** A run in which a decision call disturbs a selected victim. */
module PoolExample {
  import opened Prelude
  import opened Pools
  import opened PoolRuns

  /** However a run goes on from `t`, it can be reached from `s` by taking these steps first. */
  ghost predicate Leads(s: Pool, steps: seq<Step>, t: Pool) {
    forall rest :: CanRun(t, rest) ==> CanRun(s, steps + rest) && After(s, steps + rest) == After(t, rest)
  }

  lemma LeadsStep(s: Pool, step: Step, t: Pool)
    requires Enabled(s, step) && Apply(s, step) == t
    ensures Leads(s, [step], t)
  {
    forall rest | CanRun(t, rest) ensures CanRun(s, [step] + rest) && After(s, [step] + rest) == After(t, rest) {
      assert ([step] + rest)[1..] == rest;
    }
  }

  lemma LeadsJoin(s: Pool, a: seq<Step>, t: Pool, b: seq<Step>, u: Pool)
    requires Leads(s, a, t) && Leads(t, b, u)
    ensures Leads(s, a + b, u)
  {
    forall rest | CanRun(u, rest) ensures CanRun(s, (a + b) + rest) && After(s, (a + b) + rest) == After(u, rest) {
      assert (a + b) + rest == a + (b + rest);
    }
  }

  lemma LeadsThere(s: Pool, steps: seq<Step>, t: Pool)
    requires Leads(s, steps, t)
    ensures CanRun(s, steps) && After(s, steps) == t
  {
    assert CanRun(t, []) && steps + [] == steps;
  }

  lemma TwoSteps(s: Pool, a: Step, t: Pool, b: Step, u: Pool)
    requires Enabled(s, a) && Apply(s, a) == t && Enabled(t, b) && Apply(t, b) == u
    ensures Leads(s, [a, b], u)
  {
    LeadsStep(s, a, t);
    LeadsStep(t, b, u);
    LeadsJoin(s, [a], t, [b], u);
    assert [a] + [b] == [a, b];
  }

  lemma ThreeSteps(s: Pool, a: Step, t: Pool, b: Step, u: Pool, c: Step, v: Pool)
    requires Enabled(s, a) && Apply(s, a) == t && Enabled(t, b) && Apply(t, b) == u && Enabled(u, c) && Apply(u, c) == v
    ensures Leads(s, [a, b, c], v)
  {
    LeadsStep(s, a, t);
    TwoSteps(t, b, u, c, v);
    LeadsJoin(s, [a], t, [b, c], v);
    assert [a] + [b, c] == [a, b, c];
  }

  /** Two keys and two slots for the run below. */
  datatype Pair = Pair(a: BlockKey, b: BlockKey, x: Slot, y: Slot) {
    predicate Differ() { a != b && x != y }

    /** With one block, "a" ... */
    function One(phase: Phase, claims: multiset<nat>, ranked: set<BlockKey>): Pool {
      Pool({x, y}, map[0 := Block(a, {x})], map[0 := phase], {}, map[a := 0], map[a := None], map[], multiset{},
           multiset{}, [],
           [], claims, ranked, multiset{y}, map[x := 0], None, [], [])
    }

    /** ... and with both. */
    function Two(phase: Phase, claims: multiset<nat>, ranked: set<BlockKey>): Pool {
      Pool({x, y}, map[0 := Block(a, {x}), 1 := Block(b, {y})], map[0 := Complete, 1 := phase], {}, map[a := 0, b := 1],
           map[a := None, b := None], map[], multiset{}, multiset{}, [], [], claims, ranked, multiset{},
           map[x := 0, y := 1], None, [], [])
    }

    function Spilling(): Pool { Two(Complete, multiset{1}, {a}).(victims := [0]) }

    function Withdrawing(): Pool {
      Two(Complete, multiset{}, {a}).(victims := [0], retiring := {1}, index := map[a := None], resident := map[a := 0],
        freeing := Some(1))
    }

    function Given(): Pool { Withdrawing().(free := multiset{y}, owner := map[x := 0], freeing := None) }

    function Doomed(): Pool {
      Given().(claims := multiset{0}, ranked := {}, victims := [], committing := [0], index := map[])
    }

    function Lost(): Pool { Doomed().(committing := [], resident := map[], free := multiset{x, y}, owner := map[]) }
  }

  lemma AReserved(p: Pair)
    requires p.Differ()
    ensures Enabled(Empty({p.x, p.y}), Reserve(p.a, 0, {p.x}))
    ensures Apply(Empty({p.x, p.y}), Reserve(p.a, 0, {p.x})) == p.One(Filling, multiset{}, {})
  {
    var s := ApplyReserve(Empty({p.x, p.y}), p.a, 0, {p.x});
    assert s.free == multiset{p.y};
    assert s.owner == map[p.x := 0];
    assert s == p.One(Filling, multiset{}, {});
  }

  lemma AFilled(p: Pair)
    requires p.Differ()
    ensures Leads(p.One(Filling, multiset{}, {}), [Claim(p.a), Fill(0, Complete), Unclaim(0)],
                  p.One(Complete, multiset{}, {p.a}))
  {
    var s, t := p.One(Filling, multiset{}, {}), p.One(Filling, multiset{0}, {});
    var u, v := p.One(Complete, multiset{0}, {}), p.One(Complete, multiset{}, {p.a});
    assert ApplyClaim(s, p.a) == t;
    assert ApplyFill(t, 0, Complete) == u;
    assert DropClaim(u, 0) == p.One(Complete, multiset{}, {});
    assert ApplyUnclaim(u, 0) == v;
    ThreeSteps(s, Claim(p.a), t, Fill(0, Complete), u, Unclaim(0), v);
  }

  lemma BReservedState(p: Pair)
    requires p.Differ()
    ensures ApplyReserve(p.One(Complete, multiset{}, {p.a}), p.b, 1, {p.y}) == p.Two(Filling, multiset{}, {p.a})
  {
    var s := p.One(Complete, multiset{}, {p.a});
    assert s.free - multiset({p.y}) == multiset{};
    assert ApplyReserve(s, p.b, 1, {p.y}).owner == map[p.x := 0, p.y := 1];
  }

  lemma BReserved(p: Pair)
    requires p.Differ()
    ensures Enabled(p.One(Complete, multiset{}, {p.a}), Reserve(p.b, 1, {p.y}))
    ensures Apply(p.One(Complete, multiset{}, {p.a}), Reserve(p.b, 1, {p.y})) == p.Two(Filling, multiset{}, {p.a})
  {
    BReservedState(p);
  }

  lemma BClaimed(p: Pair)
    requires p.Differ()
    ensures Leads(p.Two(Filling, multiset{}, {p.a}), [Claim(p.b), Fill(1, Complete)],
                  p.Two(Complete, multiset{1}, {p.a}))
  {
    var s, t := p.Two(Filling, multiset{}, {p.a}), p.Two(Filling, multiset{1}, {p.a});
    assert ApplyClaim(s, p.b) == t;
    assert ApplyFill(t, 1, Complete) == p.Two(Complete, multiset{1}, {p.a});
    TwoSteps(s, Claim(p.b), t, Fill(1, Complete), p.Two(Complete, multiset{1}, {p.a}));
  }

  lemma BFilled(p: Pair)
    requires p.Differ()
    ensures Leads(p.Two(Filling, multiset{}, {p.a}), [Claim(p.b), Fill(1, Complete)] + [Unclaim(1)],
                  p.Two(Complete, multiset{}, {p.a, p.b}))
  {
    var s, t := p.Two(Complete, multiset{1}, {p.a}), p.Two(Complete, multiset{}, {p.a, p.b});
    assert DropClaim(s, 1) == p.Two(Complete, multiset{}, {p.a});
    assert ApplyUnclaim(s, 1) == t;
    LeadsStep(s, Unclaim(1), t);
    BClaimed(p);
    LeadsJoin(p.Two(Filling, multiset{}, {p.a}), [Claim(p.b), Fill(1, Complete)], s, [Unclaim(1)], t);
  }

  lemma ASelected(p: Pair)
    requires p.Differ()
    ensures Leads(p.Two(Complete, multiset{}, {p.a, p.b}), [Select(p.a), Claim(p.b)], p.Spilling())
  {
    var s := p.Two(Complete, multiset{}, {p.a, p.b});
    var t := s.(victims := [0]);
    assert ApplySelect(s, p.a) == t;
    assert ApplyClaim(t, p.b) == p.Spilling();
    TwoSteps(s, Select(p.a), t, Claim(p.b), p.Spilling());
  }

  lemma BWithdrawn(p: Pair)
    requires p.Differ()
    ensures Leads(p.Spilling(), [Retire(p.b), Unclaim(1)], p.Withdrawing())
  {
    var s := p.Spilling();
    var t := s.(retiring := {1});
    assert s.index[p.b := None] == s.index;
    assert ApplyRetire(s, p.b) == t;
    var u := t.(claims := multiset{});
    assert DropClaim(t, 1) == u;
    assert u.index - {p.b} == map[p.a := None] && u.resident - {p.b} == map[p.a := 0];
    assert ApplyUnclaim(t, 1) == p.Withdrawing();
    TwoSteps(s, Retire(p.b), t, Unclaim(1), p.Withdrawing());
  }

  lemma BFreed(p: Pair)
    requires p.Differ()
    ensures Leads(p.Withdrawing(), [Free], p.Given())
  {
    var s := p.Withdrawing();
    assert s.owner - {p.y} == map[p.x := 0];
    assert multiset({p.y}) == multiset{p.y};
    assert ApplyFree(s) == p.Given();
    LeadsStep(s, Free, p.Given());
  }

  lemma ARetaken(p: Pair)
    requires p.Differ()
    ensures Leads(p.Given(), [Claim(p.a), Commit], p.Doomed())
  {
    var s := p.Given();
    var t := s.(claims := multiset{0}, ranked := {});
    assert ApplyClaim(s, p.a) == t;
    assert 0 in t.victims;
    assert Committed(t).index == map[];
    assert ApplyCommit(t) == p.Doomed();
    TwoSteps(s, Claim(p.a), t, Commit, p.Doomed());
  }

  lemma AEvicted(p: Pair)
    requires p.Differ()
    ensures Leads(p.Doomed(), [Evict], p.Lost())
  {
    var s := p.Doomed();
    assert s.owner - {p.x} == map[] && s.resident - {p.a} == map[];
    assert multiset({p.x}) == multiset{p.x};
    assert ApplyEvict(s) == p.Lost();
    LeadsStep(s, Evict, p.Lost());
  }

  function SetUpSteps(p: Pair): seq<Step> {
    ([Reserve(p.a, 0, {p.x})] + [Claim(p.a), Fill(0, Complete), Unclaim(0)])
    + ([Reserve(p.b, 1, {p.y})] + ([Claim(p.b), Fill(1, Complete)] + [Unclaim(1)]))
  }

  function LosingSteps(p: Pair): seq<Step> {
    ([Select(p.a), Claim(p.b)] + [Retire(p.b), Unclaim(1)]) + ([Free] + ([Claim(p.a), Commit] + [Evict]))
  }

  lemma SetUp(p: Pair)
    requires p.Differ()
    ensures Leads(Empty({p.x, p.y}), SetUpSteps(p), p.Two(Complete, multiset{}, {p.a, p.b}))
  {
    var empty, one := Empty({p.x, p.y}), p.One(Complete, multiset{}, {p.a});
    var two := p.Two(Complete, multiset{}, {p.a, p.b});
    var first, second := p.One(Filling, multiset{}, {}), p.Two(Filling, multiset{}, {p.a});
    AReserved(p);
    LeadsStep(empty, Reserve(p.a, 0, {p.x}), first);
    AFilled(p);
    LeadsJoin(empty, [Reserve(p.a, 0, {p.x})], first, [Claim(p.a), Fill(0, Complete), Unclaim(0)], one);
    BReserved(p);
    LeadsStep(one, Reserve(p.b, 1, {p.y}), second);
    BFilled(p);
    LeadsJoin(one, [Reserve(p.b, 1, {p.y})], second, ([Claim(p.b), Fill(1, Complete)] + [Unclaim(1)]), two);
    LeadsJoin(empty, [Reserve(p.a, 0, {p.x})] + [Claim(p.a), Fill(0, Complete), Unclaim(0)], one,
              [Reserve(p.b, 1, {p.y})] + ([Claim(p.b), Fill(1, Complete)] + [Unclaim(1)]), two);
  }

  lemma Disturbance(p: Pair)
    requires p.Differ()
    ensures Leads(p.Two(Complete, multiset{}, {p.a, p.b}), LosingSteps(p), p.Lost())
  {
    var two := p.Two(Complete, multiset{}, {p.a, p.b});
    ASelected(p);
    BWithdrawn(p);
    LeadsJoin(two, [Select(p.a), Claim(p.b)], p.Spilling(), [Retire(p.b), Unclaim(1)], p.Withdrawing());
    ARetaken(p);
    AEvicted(p);
    LeadsJoin(p.Given(), [Claim(p.a), Commit], p.Doomed(), [Evict], p.Lost());
    BFreed(p);
    LeadsJoin(p.Withdrawing(), [Free], p.Given(), [Claim(p.a), Commit] + [Evict], p.Lost());
    LeadsJoin(two, [Select(p.a), Claim(p.b)] + [Retire(p.b), Unclaim(1)], p.Withdrawing(),
              [Free] + ([Claim(p.a), Commit] + [Evict]), p.Lost());
  }

  /** Two blocks are filled and idle, and two slots are wanted. "a" is selected; the decision
      for "b" tries to spill it, fails, retires it and frees its slot, and the waiter this
      resumes claims "a"; now enough is free, so the commit goes ahead: the claim survives on a
      slot that has been given back. */
  lemma ReentrantClaimIsLost(p: Pair)
    requires p.Differ()
    ensures var steps := SetUpSteps(p) + LosingSteps(p);
      CanRun(Empty({p.x, p.y}), steps) && After(Empty({p.x, p.y}), steps) == p.Lost()
    ensures p.Lost().claims == multiset{0} && p.Lost().blocks[0].slots == {p.x} && p.x in p.Lost().free
  {
    SetUp(p);
    Disturbance(p);
    LeadsJoin(Empty({p.x, p.y}), SetUpSteps(p), p.Two(Complete, multiset{}, {p.a, p.b}), LosingSteps(p), p.Lost());
    LeadsThere(Empty({p.x, p.y}), SetUpSteps(p) + LosingSteps(p), p.Lost());
  }
}
