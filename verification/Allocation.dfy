/**
 Slot allocation: one slot of the right pool for each label, from the front of the pools'
 free lists, after evicting as many candidates as it takes. Either everything happens or
 nothing does.
 */
module Allocation {
  import opened Prelude
  import opened Layouts

  /** The pool a descriptor label belongs to: what precedes its first colon. */
  function PoolOf(piece: Label): string {
    if piece == "" || piece[0] == ':' then "" else [piece[0]] + PoolOf(piece[1..])
  }

  /** How many labels need a slot of pool `p`. */
  function Need(layout: seq<Label>, p: string): nat {
    if layout == [] then 0 else (if PoolOf(layout[0]) == p then 1 else 0) + Need(layout[1..], p)
  }

  /** The indices of pool `p` among some slots, in order. */
  function Given(slots: seq<Slot>, p: string): seq<nat> {
    if slots == [] then [] else (if slots[0].pool == p then [slots[0].index] else []) + Given(slots[1..], p)
  }

  lemma {:induction false} GivenAppend(a: seq<Slot>, b: seq<Slot>, p: string)
    ensures Given(a + b, p) == Given(a, p) + Given(b, p)
  {
    if a == [] {
      assert a + b == b;
    } else {
      GivenAppend(a[1..], b, p);
      assert (a + b)[1..] == a[1..] + b;
    }
  }

  lemma GivenLast(slots: seq<Slot>, slot: Slot, p: string)
    ensures Given(slots + [slot], p) == if slot.pool == p then Given(slots, p) + [slot.index] else Given(slots, p)
  {
    GivenAppend(slots, [slot], p);
    assert [slot][1..] == [];
  }

  /** The evictable keys in the order the eviction queue yields them. What a candidate's reader
      check and decision will say, and whether a reader comes before the commit, is given. A
      spill that fails at once keeps nothing: the block is lost and its slots come back during
      the decision call itself. */
  datatype Decision = Drop | Keep | Lost | Pending
  datatype Candidate = Candidate(slots: seq<Slot>, busy: bool, decision: Decision, readLater: bool)

  /** `lost` are the candidates whose decision call gave their slots back. */
  datatype Outcome =
    | Placed(locations: seq<Slot>, victims: seq<nat>, lost: seq<nat>)
    | Refused(lost: seq<nat>)
    | Waiting(lost: seq<nat>)

  /** The pools that are short even with what would be gained. */
  function Deficient(free: map<string, seq<nat>>, layout: seq<Label>, gained: seq<Slot>): set<string> {
    set p | p in free && |free[p]| + |Given(gained, p)| < Need(layout, p)
  }

  function Gained(candidates: seq<Candidate>, victims: seq<nat>): seq<Slot>
    requires forall k :: 0 <= k < |victims| ==> victims[k] < |candidates|
  {
    if victims == [] then [] else candidates[victims[0]].slots + Gained(candidates, victims[1..])
  }

  lemma {:induction false} GainedAppend(candidates: seq<Candidate>, victims: seq<nat>, v: nat)
    requires (forall k :: 0 <= k < |victims| ==> victims[k] < |candidates|) && v < |candidates|
    ensures Gained(candidates, victims + [v]) == Gained(candidates, victims) + candidates[v].slots
  {
    if victims == [] {
      assert [v][1..] == [];
    } else {
      assert (victims + [v])[1..] == victims[1..] + [v];
      GainedAppend(candidates, victims[1..], v);
    }
  }

  predicate Useful(c: Candidate, deficient: set<string>) {
    exists k :: 0 <= k < |c.slots| && c.slots[k].pool in deficient
  }

  /** In pool `p`, what was taken is the front of what was free. */
  ghost predicate Front(taken: seq<Slot>, free: map<string, seq<nat>>, before: map<string, seq<nat>>, p: string) {
    p in free && p in before ==> Given(taken, p) + free[p] == before[p]
  }

  ghost predicate Enough(layout: seq<Label>, free: map<string, seq<nat>>, p: string) {
    p in free ==> Need(layout, p) <= |free[p]|
  }

  lemma TakeOne(taken: seq<Slot>, free: map<string, seq<nat>>, before: map<string, seq<nat>>, layout: seq<Label>,
                slot: Slot, q: string)
    requires layout != [] && slot.pool == PoolOf(layout[0]) && slot.pool in free && free[slot.pool] != []
    requires slot.index == free[slot.pool][0]
    requires Front(taken, free, before, q) && Enough(layout, free, q)
    ensures Front(taken + [slot], free[slot.pool := free[slot.pool][1..]], before, q)
    ensures Enough(layout[1..], free[slot.pool := free[slot.pool][1..]], q)
  {
    GivenLast(taken, slot, q);
    if q == slot.pool {
      assert Given(taken, q) + [slot.index] + free[q][1..] == Given(taken, q) + free[q];
    }
  }

  class SlotPools {
    var free: map<string, seq<nat>>

    constructor (free: map<string, seq<nat>>)
      ensures this.free == free
    {
      this.free := free;
    }

    /** Pop one slot per label. In each pool, what is handed out is exactly the front of the
        free list. */
    method TakeSlots(layout: seq<Label>) returns (taken: seq<Slot>)
      requires forall k :: 0 <= k < |layout| ==> PoolOf(layout[k]) in free
      requires forall p :: p in free ==> Need(layout, p) <= |free[p]|
      modifies this
      ensures |taken| == |layout| && forall k :: 0 <= k < |layout| ==> taken[k].pool == PoolOf(layout[k])
      ensures free.Keys == old(free.Keys)
      ensures forall p :: p in free ==> Given(taken, p) + free[p] == old(free[p])
    {
      taken := [];
      ghost var before := free;
      assert layout[0..] == layout;
      for k := 0 to |layout|
        invariant |taken| == k && forall j :: 0 <= j < k ==> taken[j].pool == PoolOf(layout[j])
        invariant free.Keys == before.Keys
        invariant forall p :: Front(taken, free, before, p)
        invariant forall p :: Enough(layout[k..], free, p)
      {
        var p := PoolOf(layout[k]);
        assert Enough(layout[k..], free, p);
        assert layout[k..][1..] == layout[k + 1..];
        var slot := Slot(p, free[p][0]);
        ghost var less, rest := free[p := free[p][1..]], layout[k + 1..];
        forall q ensures Front(taken + [slot], less, before, q) {
          assert Front(taken, free, before, q) && Enough(layout[k..], free, q);
          TakeOne(taken, free, before, layout[k..], slot, q);
        }
        forall q ensures Enough(rest, less, q) {
          assert Front(taken, free, before, q) && Enough(layout[k..], free, q);
          TakeOne(taken, free, before, layout[k..], slot, q);
        }
        taken := taken + [slot];
        free := free[p := free[p][1..]];
      }
      forall p | p in free ensures Given(taken, p) + free[p] == before[p] { assert Front(taken, free, before, p); }
    }

    /** Give slots back, each at the end of its pool's free list. */
    method FreeAll(slots: seq<Slot>)
      requires forall k :: 0 <= k < |slots| ==> slots[k].pool in free
      modifies this
      ensures free.Keys == old(free.Keys)
      ensures forall p :: p in free ==> free[p] == old(free[p]) + Given(slots, p)
    {
      ghost var before := free;
      for k := 0 to |slots|
        invariant free.Keys == before.Keys && forall p :: Grown(free, before, slots[..k], p)
      {
        var s := slots[k];
        ghost var mid := free;
        free := free[s.pool := free[s.pool] + [s.index]];
        ghost var done := slots[..k + 1];
        assert done == slots[..k] + [s];
        forall p ensures Grown(free, before, done, p) {
          assert Grown(mid, before, slots[..k], p);
          GivenLast(slots[..k], s, p);
        }
      }
      assert slots[..|slots|] == slots;
      forall p | p in free ensures free[p] == before[p] + Given(slots, p) { assert Grown(free, before, slots, p); }
    }

    /** A failed spill gives its block's slots back in the middle of the scan. */
    method FreeLost(slots: seq<Slot>, ghost before: map<string, seq<nat>>, ghost gained: seq<Slot>)
      requires forall k :: 0 <= k < |slots| ==> slots[k].pool in free
      requires free.Keys == before.Keys && forall p :: Grown(free, before, gained, p)
      modifies this
      ensures free.Keys == before.Keys && forall p :: Grown(free, before, gained + slots, p)
    {
      ghost var mid := free;
      FreeAll(slots);
      forall p ensures Grown(free, before, gained + slots, p) {
        assert Grown(mid, before, gained, p);
        GivenAppend(gained, slots, p);
      }
    }

    /** Walk the candidates until no pool is short. */
    method Choose(layout: seq<Label>, candidates: seq<Candidate>)
      returns (victims: seq<nat>, lost: seq<nat>, verdict: Verdict)
      requires PoolsKnown(candidates, free.Keys)
      modifies this
      ensures free.Keys == old(free.Keys)
      ensures Chosen(candidates, victims, |candidates|, Drop) && Chosen(candidates, lost, |candidates|, Lost)
      ensures AllNeeded(old(free), layout, candidates, victims)
      ensures forall p :: Grown(free, old(free), Gained(candidates, lost), p)
      ensures verdict.Satisfied? ==> Deficient(free, layout, Gained(candidates, victims)) == {}
      ensures verdict.Short? ==> Deficient(free, layout, Gained(candidates, victims)) != {}
      ensures verdict.Short? ==>
        NoneHelps(candidates, victims, lost, |candidates|, Deficient(free, layout, Gained(candidates, victims)))
      ensures verdict.Held? ==> AnyPending(candidates)
    {
      victims, lost := [], [];
      var deficient := Deficient(free, layout, []);
      ghost var before := free;
      for i := 0 to |candidates|
        invariant Scanned(free, before, layout, candidates, victims, lost, i, deficient)
      {
        if deficient == {} {
          return victims, lost, Satisfied;
        }
        var c := candidates[i];
        if c.busy || !Useful(c, deficient) || c.decision.Keep? {
          ScanPass(free, before, layout, candidates, victims, lost, i, deficient);
        } else if c.decision.Pending? {
          return victims, lost, Held;
        } else if c.decision.Drop? {
          ScanDrop(free, before, layout, candidates, victims, lost, i, deficient);
          victims := victims + [i];
          deficient := Deficient(free, layout, Gained(candidates, victims));
        } else {
          ghost var mid := free;
          FreeLost(c.slots, before, Gained(candidates, lost));
          ScanLost(mid, free, before, layout, candidates, victims, lost, i, deficient);
          lost := lost + [i];
          deficient := Deficient(free, layout, Gained(candidates, victims));
        }
      }
      verdict := if deficient == {} then Satisfied else Short;
    }

    /** All or nothing: either every label gets a slot of its own from the right pool, no two
        labels the same one, and besides what decision calls gave back only the victims' slots
        returned; or nothing was evicted. */
    method Allocate(layout: seq<Label>, candidates: seq<Candidate>, evictionPending: bool) returns (outcome: Outcome)
      requires forall k :: 0 <= k < |layout| ==> PoolOf(layout[k]) in free
      requires PoolsKnown(candidates, free.Keys) && Exclusive(free, candidates)
      modifies this
      ensures free.Keys == old(free.Keys)
      ensures Chosen(candidates, outcome.lost, |candidates|, Lost)
      ensures !outcome.Placed? ==> forall p :: Grown(free, old(free), Gained(candidates, outcome.lost), p)
      ensures outcome.Placed? ==>
        && |outcome.locations| == |layout|
        && (forall k :: 0 <= k < |layout| ==> outcome.locations[k].pool == PoolOf(layout[k]))
        && Distinct(outcome.locations)
        && Chosen(candidates, outcome.victims, |candidates|, Drop)
        && AllNeeded(old(free), layout, candidates, outcome.victims)
        && (forall k :: 0 <= k < |outcome.victims| ==> !candidates[outcome.victims[k]].readLater)
        && (forall p :: p in free ==> Distinct(Given(outcome.locations, p) + free[p]))
        && (forall p :: p in free ==>
            Given(outcome.locations, p) + free[p]
            == old(free[p]) + Given(Gained(candidates, outcome.lost), p)
              + Given(Gained(candidates, outcome.victims), p))
      ensures outcome.Refused? ==> exists victims :: IsShort(free, layout, candidates, victims, outcome.lost)
      ensures outcome.Waiting? ==> Deficient(old(free), layout, []) != {} && (evictionPending || AnyPending(candidates))
      ensures Deficient(old(free), layout, []) == {} ==> outcome.Placed? && outcome.victims == [] && outcome.lost == []
      ensures Deficient(old(free), layout, []) != {} && evictionPending ==> outcome == Waiting([])
    {
      if Deficient(free, layout, []) == {} {
        EnoughIsPlenty(free, layout, []);
        var taken := TakeSlots(layout);
        PlacedDistinct(taken, old(free), free, candidates, [], []);
        return Placed(taken, [], []);
      }
      if evictionPending {
        return Waiting([]);
      }
      var victims, lost, verdict := Choose(layout, candidates);
      if verdict.Held? {
        return Waiting(lost);
      }
      if verdict.Short? || exists k :: 0 <= k < |victims| && candidates[victims[k]].readLater {
        assert IsShort(free, layout, candidates, victims, lost);
        return Refused(lost);
      }
      var taken := EvictAndTake(layout, candidates, victims, lost, old(free));
      PlacedDistinct(taken, old(free), free, candidates, lost, victims);
      outcome := Placed(taken, victims, lost);
    }

    /** The commit: the victims' slots return, and then every label takes one. */
    method EvictAndTake(layout: seq<Label>, candidates: seq<Candidate>, victims: seq<nat>, ghost lost: seq<nat>,
                        ghost before: map<string, seq<nat>>) returns (taken: seq<Slot>)
      requires forall k :: 0 <= k < |layout| ==> PoolOf(layout[k]) in free
      requires PoolsKnown(candidates, free.Keys) && free.Keys == before.Keys
      requires Chosen(candidates, victims, |candidates|, Drop) && Chosen(candidates, lost, |candidates|, Lost)
      requires Deficient(free, layout, Gained(candidates, victims)) == {}
      requires forall p :: Grown(free, before, Gained(candidates, lost), p)
      modifies this
      ensures free.Keys == before.Keys
      ensures |taken| == |layout| && forall k :: 0 <= k < |layout| ==> taken[k].pool == PoolOf(layout[k])
      ensures forall p :: p in free ==>
        Given(taken, p) + free[p] == before[p] + Given(Gained(candidates, lost), p)
          + Given(Gained(candidates, victims), p)
    {
      EnoughIsPlenty(free, layout, Gained(candidates, victims));
      GainedPools(candidates, victims, free.Keys);
      FreeAll(Gained(candidates, victims));
      ghost var mid := old(free);
      taken := TakeSlots(layout);
      forall p | p in free
        ensures Given(taken, p) + free[p] == before[p] + Given(Gained(candidates, lost), p)
          + Given(Gained(candidates, victims), p)
      {
        assert Grown(mid, before, Gained(candidates, lost), p);
      }
    }
  }

  datatype Verdict = Satisfied | Short | Held

  /** Candidates picked in order, each once, for their decision. */
  ghost predicate Chosen(candidates: seq<Candidate>, picked: seq<nat>, n: nat, decision: Decision) {
    && (forall k :: 0 <= k < |picked| ==>
        picked[k] < n && picked[k] < |candidates| && !candidates[picked[k]].busy
          && candidates[picked[k]].decision == decision)
    && (forall j, k :: 0 <= j < k < |picked| ==> picked[j] < picked[k])
  }

  /** Nobody is evicted in vain: when a victim was picked, some pool that it has a slot of was short. */
  ghost predicate AllNeeded(free: map<string, seq<nat>>, layout: seq<Label>, candidates: seq<Candidate>,
                            victims: seq<nat>) {
    && (forall k :: 0 <= k < |victims| ==> victims[k] < |candidates|)
    && (forall k :: 0 <= k < |victims| ==>
          Useful(candidates[victims[k]], Deficient(free, layout, Gained(candidates, victims[..k]))))
  }

  ghost predicate AnyPending(candidates: seq<Candidate>) {
    exists i :: 0 <= i < |candidates| && candidates[i].decision == Pending && !candidates[i].busy
  }

  /** Why an allocation is refused: a pool stays short although every willing candidate that would help was
      picked, or a reader came to one that was picked. */
  ghost predicate IsShort(free: map<string, seq<nat>>, layout: seq<Label>, candidates: seq<Candidate>,
                          victims: seq<nat>, lost: seq<nat>) {
    && Chosen(candidates, victims, |candidates|, Drop)
    && var deficient := Deficient(free, layout, Gained(candidates, victims));
       || (deficient != {} && NoneHelps(candidates, victims, lost, |candidates|, deficient))
       || exists k :: 0 <= k < |victims| && candidates[victims[k]].readLater
  }

  ghost predicate PoolsKnown(candidates: seq<Candidate>, pools: set<string>) {
    forall i, k :: 0 <= i < |candidates| && 0 <= k < |candidates[i].slots| ==> candidates[i].slots[k].pool in pools
  }

  /** Among the first `n` candidates no willing one was passed over that would help. */
  predicate CouldHelp(c: Candidate) { !c.busy && c.decision in {Drop, Lost} }

  ghost predicate NoneHelps(candidates: seq<Candidate>, victims: seq<nat>, lost: seq<nat>, n: nat,
                            deficient: set<string>) {
    forall i :: 0 <= i < n && i < |candidates| && CouldHelp(candidates[i]) && i !in victims && i !in lost ==>
      !Useful(candidates[i], deficient)
  }

  /** Where the scan stands after `n` candidates. */
  ghost predicate Scanned(free: map<string, seq<nat>>, before: map<string, seq<nat>>, layout: seq<Label>,
                          candidates: seq<Candidate>,
                          victims: seq<nat>, lost: seq<nat>, n: nat, deficient: set<string>) {
    && free.Keys == before.Keys
    && Chosen(candidates, victims, n, Drop) && Chosen(candidates, lost, n, Lost)
    && (forall p :: Grown(free, before, Gained(candidates, lost), p))
    && deficient == Deficient(free, layout, Gained(candidates, victims))
    && NoneHelps(candidates, victims, lost, n, deficient)
    && AllNeeded(before, layout, candidates, victims)
  }

  lemma ScanPass(free: map<string, seq<nat>>, before: map<string, seq<nat>>, layout: seq<Label>,
                 candidates: seq<Candidate>,
                 victims: seq<nat>, lost: seq<nat>, i: nat, deficient: set<string>)
    requires Scanned(free, before, layout, candidates, victims, lost, i, deficient) && i < |candidates|
    requires candidates[i].busy || !Useful(candidates[i], deficient) || candidates[i].decision.Keep?
    ensures Scanned(free, before, layout, candidates, victims, lost, i + 1, deficient)
  {
  }

  lemma ScanDrop(free: map<string, seq<nat>>, before: map<string, seq<nat>>, layout: seq<Label>,
                 candidates: seq<Candidate>,
                 victims: seq<nat>, lost: seq<nat>, i: nat, deficient: set<string>)
    requires Scanned(free, before, layout, candidates, victims, lost, i, deficient) && i < |candidates|
    requires !candidates[i].busy && candidates[i].decision.Drop? && Useful(candidates[i], deficient)
    ensures Scanned(free, before, layout, candidates, victims + [i], lost, i + 1,
                    Deficient(free, layout, Gained(candidates, victims + [i])))
  {
    GainedAppend(candidates, victims, i);
    NeededMore(free, before, layout, candidates, victims, lost, i);
    DeficientShrinks(free, layout, Gained(candidates, victims), candidates[i].slots);
    StillNone(candidates, victims, lost, victims + [i], lost, i, deficient,
              Deficient(free, layout, Gained(candidates, victims + [i])));
  }

  lemma NeededMore(free: map<string, seq<nat>>, before: map<string, seq<nat>>, layout: seq<Label>,
                   candidates: seq<Candidate>, victims: seq<nat>, lost: seq<nat>, i: nat)
    requires free.Keys == before.Keys && Chosen(candidates, lost, |candidates|, Lost)
    requires (forall p :: Grown(free, before, Gained(candidates, lost), p)) && i < |candidates|
    requires AllNeeded(before, layout, candidates, victims)
    requires Useful(candidates[i], Deficient(free, layout, Gained(candidates, victims)))
    ensures AllNeeded(before, layout, candidates, victims + [i])
  {
    var more := victims + [i];
    var fed := Gained(candidates, lost);
    assert [] + fed == fed;
    DeficientFed(before, free, before, layout, Gained(candidates, victims), [], fed);
    forall k | 0 <= k < |more|
      ensures Useful(candidates[more[k]], Deficient(before, layout, Gained(candidates, more[..k])))
    {
      assert more[..k] == victims[..k];
      if k == |victims| {
        assert victims[..k] == victims;
      }
    }
  }

  lemma ScanLost(mid: map<string, seq<nat>>, free: map<string, seq<nat>>, before: map<string, seq<nat>>,
                 layout: seq<Label>,
                 candidates: seq<Candidate>, victims: seq<nat>, lost: seq<nat>, i: nat, deficient: set<string>)
    requires Scanned(mid, before, layout, candidates, victims, lost, i, deficient) && i < |candidates|
    requires !candidates[i].busy && candidates[i].decision.Lost? && free.Keys == before.Keys
    requires forall p :: Grown(free, before, Gained(candidates, lost) + candidates[i].slots, p)
    ensures Scanned(free, before, layout, candidates, victims, lost + [i], i + 1,
                    Deficient(free, layout, Gained(candidates, victims)))
  {
    GainedAppend(candidates, lost, i);
    DeficientFed(mid, free, before, layout, Gained(candidates, victims), Gained(candidates, lost), candidates[i].slots);
    StillNone(candidates, victims, lost, victims, lost + [i], i, deficient,
              Deficient(free, layout, Gained(candidates, victims)));
  }

  lemma StillNone(candidates: seq<Candidate>, victims: seq<nat>, lost: seq<nat>, victims': seq<nat>, lost': seq<nat>,
                  i: nat,
                  before: set<string>, after: set<string>)
    requires NoneHelps(candidates, victims, lost, i, before) && after <= before
    requires victims <= victims' && lost <= lost' && (i in victims' || i in lost')
    ensures NoneHelps(candidates, victims', lost', i + 1, after)
  {
    assert forall x :: x in victims ==> x in victims';
    assert forall x :: x in lost ==> x in lost';
  }

  /** In pool `p` the free list is as before, with these slots at its end. */
  ghost predicate Grown(now: map<string, seq<nat>>, before: map<string, seq<nat>>, slots: seq<Slot>, p: string) {
    p in now && p in before ==> now[p] == before[p] + Given(slots, p)
  }

  lemma DeficientFed(mid: map<string, seq<nat>>, now: map<string, seq<nat>>, before: map<string, seq<nat>>,
                     layout: seq<Label>,
                     gained: seq<Slot>, fed: seq<Slot>, more: seq<Slot>)
    requires mid.Keys == now.Keys == before.Keys
    requires forall p :: Grown(mid, before, fed, p)
    requires forall p :: Grown(now, before, fed + more, p)
    ensures Deficient(now, layout, gained) <= Deficient(mid, layout, gained)
  {
    forall p | p in Deficient(now, layout, gained) ensures p in Deficient(mid, layout, gained) {
      assert Grown(mid, before, fed, p) && Grown(now, before, fed + more, p);
      GivenAppend(fed, more, p);
    }
  }

  lemma DeficientShrinks(free: map<string, seq<nat>>, layout: seq<Label>, gained: seq<Slot>, more: seq<Slot>)
    ensures Deficient(free, layout, gained + more) <= Deficient(free, layout, gained)
  {
    forall p | p in Deficient(free, layout, gained + more) ensures p in Deficient(free, layout, gained) {
      GivenAppend(gained, more, p);
    }
  }

  lemma EnoughIsPlenty(free: map<string, seq<nat>>, layout: seq<Label>, gained: seq<Slot>)
    requires Deficient(free, layout, gained) == {}
    ensures forall p :: p in free ==> Need(layout, p) <= |free[p]| + |Given(gained, p)|
  {
    forall p | p in free ensures Need(layout, p) <= |free[p]| + |Given(gained, p)| {
      assert p !in Deficient(free, layout, gained);
    }
  }

  lemma {:induction false} GainedPools(candidates: seq<Candidate>, victims: seq<nat>, pools: set<string>)
    requires forall k :: 0 <= k < |victims| ==> victims[k] < |candidates|
    requires PoolsKnown(candidates, pools)
    ensures forall k :: 0 <= k < |Gained(candidates, victims)| ==> Gained(candidates, victims)[k].pool in pools
  {
    if victims != [] {
      GainedPools(candidates, victims[1..], pools);
    }
  }

  /** Slots handed out from free lists without repetitions are all different. */
  lemma {:induction false} TakenDistinct(taken: seq<Slot>, i: nat, j: nat)
    requires i < j < |taken| && taken[i] == taken[j]
    ensures !Distinct(Given(taken, taken[i].pool))
  {
    var p := taken[i].pool;
    if i == 0 {
      GivenHas(taken[1..], j - 1);
      var rest := Given(taken[1..], p);
      var k :| 0 <= k < |rest| && rest[k] == taken[j].index;
      assert Given(taken, p)[0] == Given(taken, p)[k + 1];
    } else {
      TakenDistinct(taken[1..], i - 1, j - 1);
      var rest := Given(taken[1..], p);
      var k, l :| 0 <= k < l < |rest| && rest[k] == rest[l];
      var shift := |Given(taken, p)| - |rest|;
      assert Given(taken, p)[k + shift] == Given(taken, p)[l + shift];
    }
  }

  lemma {:induction false} GivenHas(slots: seq<Slot>, j: nat)
    requires j < |slots|
    ensures slots[j].index in Given(slots, slots[j].pool)
  {
    if j > 0 {
      GivenHas(slots[1..], j - 1);
    }
  }

  // -- No slot twice.

  /** No slot is in two places among the free lists and the candidates. */
  ghost predicate Exclusive(free: map<string, seq<nat>>, candidates: seq<Candidate>) {
    && (forall p :: p in free ==> Distinct(free[p]))
    && (forall i :: 0 <= i < |candidates| ==> Distinct(candidates[i].slots))
    && (forall i, x :: 0 <= i < |candidates| && x in candidates[i].slots && x.pool in free ==> x.index !in free[x.pool])
    && (forall i, j, x :: 0 <= i < j < |candidates| && x in candidates[i].slots ==> x !in candidates[j].slots)
  }

  lemma {:induction false} GivenMembers(slots: seq<Slot>, p: string, i: nat)
    ensures i in Given(slots, p) <==> Slot(p, i) in slots
  {
    if slots != [] {
      GivenMembers(slots[1..], p, i);
      assert slots == [slots[0]] + slots[1..];
    }
  }

  lemma {:induction false} GivenDistinct(slots: seq<Slot>, p: string)
    requires Distinct(slots)
    ensures Distinct(Given(slots, p))
  {
    if slots != [] {
      GivenDistinct(slots[1..], p);
      GivenMembers(slots[1..], p, slots[0].index);
      assert slots[0] !in slots[1..];
    }
  }

  /** Where a gained slot comes from. */
  lemma {:induction false} GainedFrom(candidates: seq<Candidate>, picked: seq<nat>, x: Slot) returns (k: nat)
    requires (forall k :: 0 <= k < |picked| ==> picked[k] < |candidates|) && x in Gained(candidates, picked)
    ensures k < |picked| && x in candidates[picked[k]].slots
  {
    if x in candidates[picked[0]].slots {
      k := 0;
    } else {
      var l := GainedFrom(candidates, picked[1..], x);
      k := l + 1;
    }
  }

  lemma {:induction false} GainedDistinct(free: map<string, seq<nat>>, candidates: seq<Candidate>, picked: seq<nat>,
                                          n: nat, decision: Decision)
    requires Exclusive(free, candidates) && Chosen(candidates, picked, n, decision)
    ensures Distinct(Gained(candidates, picked))
  {
    if picked != [] {
      var first, rest := candidates[picked[0]].slots, Gained(candidates, picked[1..]);
      GainedDistinct(free, candidates, picked[1..], n, decision);
      forall x | x in first ensures x !in rest {
        if x in rest {
          var k := GainedFrom(candidates, picked[1..], x);
          assert false;
        }
      }
      JoinDistinct(first, rest);
    }
  }

  lemma JoinDistinct<T>(a: seq<T>, b: seq<T>)
    requires Distinct(a) && Distinct(b) && forall x :: x in a ==> x !in b
    ensures Distinct(a + b)
  {
    forall i, j | 0 <= i < j < |a + b| ensures (a + b)[i] != (a + b)[j] {
      if i < |a| <= j {
        assert a[i] in a && b[j - |a|] in b;
      }
    }
  }

  /** What was lost and what was evicted are different slots, and none of them was free. */
  lemma AllDistinct(free: map<string, seq<nat>>, candidates: seq<Candidate>, lost: seq<nat>, victims: seq<nat>, n: nat,
                    p: string)
    requires Exclusive(free, candidates) && p in free
    requires Chosen(candidates, lost, n, Lost) && Chosen(candidates, victims, n, Drop)
    ensures Distinct(free[p] + Given(Gained(candidates, lost), p) + Given(Gained(candidates, victims), p))
  {
    var a, b := Gained(candidates, lost), Gained(candidates, victims);
    GainedDistinct(free, candidates, lost, n, Lost);
    GainedDistinct(free, candidates, victims, n, Drop);
    GivenDistinct(a, p);
    GivenDistinct(b, p);
    forall i | i in free[p] ensures i !in Given(a, p) { NotGained(free, candidates, lost, p, i); }
    JoinDistinct(free[p], Given(a, p));
    forall i | i in free[p] + Given(a, p) ensures i !in Given(b, p) {
      if i in free[p] {
        NotGained(free, candidates, victims, p, i);
      } else {
        GivenMembers(a, p, i);
        GivenMembers(b, p, i);
        NotBoth(candidates, lost, victims, free, n, Slot(p, i));
      }
    }
    JoinDistinct(free[p] + Given(a, p), Given(b, p));
  }

  lemma NotGained(free: map<string, seq<nat>>, candidates: seq<Candidate>, picked: seq<nat>, p: string, i: nat)
    requires Exclusive(free, candidates) && p in free && i in free[p]
    requires forall k :: 0 <= k < |picked| ==> picked[k] < |candidates|
    ensures i !in Given(Gained(candidates, picked), p)
  {
    GivenMembers(Gained(candidates, picked), p, i);
    if Slot(p, i) in Gained(candidates, picked) {
      var k := GainedFrom(candidates, picked, Slot(p, i));
      assert false;
    }
  }

  lemma NotBoth(candidates: seq<Candidate>, lost: seq<nat>, victims: seq<nat>, free: map<string, seq<nat>>, n: nat,
                x: Slot)
    requires Exclusive(free, candidates) && Chosen(candidates, lost, n, Lost) && Chosen(candidates, victims, n, Drop)
    requires x in Gained(candidates, lost)
    ensures x !in Gained(candidates, victims)
  {
    if x in Gained(candidates, victims) {
      var j := GainedFrom(candidates, lost, x);
      var k := GainedFrom(candidates, victims, x);
      assert false;
    }
  }

  lemma PlacedInPool(given: seq<nat>, now: seq<nat>, before: map<string, seq<nat>>, candidates: seq<Candidate>,
                     lost: seq<nat>, victims: seq<nat>, p: string)
    requires Exclusive(before, candidates) && p in before
    requires Chosen(candidates, lost, |candidates|, Lost) && Chosen(candidates, victims, |candidates|, Drop)
    requires given + now == before[p] + Given(Gained(candidates, lost), p) + Given(Gained(candidates, victims), p)
    ensures Distinct(given + now) && Distinct(given)
  {
    AllDistinct(before, candidates, lost, victims, |candidates|, p);
    assert forall i :: 0 <= i < |given| ==> (given + now)[i] == given[i];
  }

  /** So no two labels are given the same slot, and none that is still free. */
  lemma PlacedDistinct(taken: seq<Slot>, before: map<string, seq<nat>>, now: map<string, seq<nat>>,
                       candidates: seq<Candidate>,
                       lost: seq<nat>, victims: seq<nat>)
    requires Exclusive(before, candidates) && now.Keys == before.Keys
    requires Chosen(candidates, lost, |candidates|, Lost) && Chosen(candidates, victims, |candidates|, Drop)
    requires forall k :: 0 <= k < |taken| ==> taken[k].pool in now
    requires forall p :: p in now ==>
      Given(taken, p) + now[p] == before[p] + Given(Gained(candidates, lost), p) + Given(Gained(candidates, victims), p)
    ensures Distinct(taken) && forall p :: p in now ==> Distinct(Given(taken, p) + now[p])
  {
    forall p | p in now ensures Distinct(Given(taken, p) + now[p]) && Distinct(Given(taken, p)) {
      PlacedInPool(Given(taken, p), now[p], before, candidates, lost, victims, p);
    }
    forall i, j | 0 <= i < j < |taken| ensures taken[i] != taken[j] {
      if taken[i] == taken[j] {
        TakenDistinct(taken, i, j);
        assert false;
      }
    }
  }
}
