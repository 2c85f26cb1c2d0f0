/**
 The slot accounting of the disk tier: every slot is free, or belongs to exactly one resident
 block, pending store or reservation in the making.
 */
module DiskStore {
  import opened Prelude

  datatype Resident = Resident(slots: seq<nat>, claims: nat)

  /** A reservation while its slots are being collected. */
  datatype Taking = NoTaking | Taking(key: BlockKey, slots: seq<nat>)

  datatype Disk = Disk(
    total: nat,
    free: seq<nat>,
    resident: map<BlockKey, Resident>,
    pending: map<BlockKey, seq<nat>>,
    taking: Taking,
    evictable: set<BlockKey>,
    unscored: set<BlockKey>,
    evictableSlots: int,
    owner: map<nat, BlockKey>)

  // -- Summing slots over keys.

  ghost function SumSlots(resident: map<BlockKey, Resident>, keys: set<BlockKey>): nat {
    if keys == {} then 0 else var k :| k in keys; SlotsOf(resident, k) + SumSlots(resident, keys - {k})
  }

  ghost function SlotsOf(resident: map<BlockKey, Resident>, k: BlockKey): nat {
    if k in resident then |resident[k].slots| else 0
  }

  lemma {:induction false} SumRemove(resident: map<BlockKey, Resident>, keys: set<BlockKey>, k: BlockKey)
    requires k in keys
    ensures SumSlots(resident, keys) == SlotsOf(resident, k) + SumSlots(resident, keys - {k})
  {
    var j :| j in keys && SumSlots(resident, keys) == SlotsOf(resident, j) + SumSlots(resident, keys - {j});
    if j != k {
      SumRemove(resident, keys - {j}, k);
      SumRemove(resident, keys - {k}, j);
      assert keys - {j} - {k} == keys - {k} - {j};
    }
  }

  lemma {:induction false} SumSame(a: map<BlockKey, Resident>, b: map<BlockKey, Resident>, keys: set<BlockKey>)
    requires forall k :: k in keys ==> SlotsOf(a, k) == SlotsOf(b, k)
    ensures SumSlots(a, keys) == SumSlots(b, keys)
  {
    if keys != {} {
      var k :| k in keys;
      SumRemove(a, keys, k);
      SumRemove(b, keys, k);
      SumSame(a, b, keys - {k});
    }
  }

  // -- The invariant.

  ghost predicate Holds(d: Disk, k: BlockKey, x: nat) {
    || (k in d.resident && x in d.resident[k].slots)
    || (k in d.pending && x in d.pending[k])
    || (d.taking.Taking? && d.taking.key == k && x in d.taking.slots)
  }

  ghost predicate SlotOk(d: Disk, x: nat) {
    && multiset(d.free)[x] == (if x < d.total && x !in d.owner then 1 else 0)
    && (x in d.owner ==> x < d.total && Holds(d, d.owner[x], x))
  }

  ghost predicate HoldOk(d: Disk, k: BlockKey, x: nat) { Holds(d, k, x) ==> x in d.owner && d.owner[x] == k }

  predicate NoRepeats(s: seq<nat>) { forall i, j :: 0 <= i < j < |s| ==> s[i] != s[j] }

  /** A key holds slots in one way only; an unclaimed resident key can be evicted, scored or not. */
  ghost predicate KeyOk(d: Disk, k: BlockKey) {
    && (k in d.pending ==> k !in d.resident && NoRepeats(d.pending[k]) && d.pending[k] != [])
    && (d.taking.Taking? && d.taking.key == k ==> k !in d.resident && k !in d.pending && NoRepeats(d.taking.slots))
    && (k in d.resident ==> NoRepeats(d.resident[k].slots) && d.resident[k].slots != [])
    && (k in d.evictable ==> k !in d.unscored)
    && (k in d.evictable || k in d.unscored <==> k in d.resident && d.resident[k].claims == 0)
  }

  ghost predicate Inv(d: Disk) {
    && (forall x :: SlotOk(d, x))
    && (forall k, x :: HoldOk(d, k, x))
    && (forall k :: KeyOk(d, k))
    && d.evictableSlots == SumSlots(d.resident, d.evictable)
  }

  /** Read off: free, resident and reserved slots partition the store. */
  lemma SlotsPartition(d: Disk, x: nat)
    requires Inv(d) && x < d.total
    ensures multiset(d.free)[x] == 1 <==> (forall k :: !Holds(d, k, x))
    ensures multiset(d.free)[x] == 0 <==> (exists k :: Holds(d, k, x))
    ensures forall j, k :: Holds(d, j, x) && Holds(d, k, x) ==> j == k
  {
    assert SlotOk(d, x);
    forall k | Holds(d, k, x) ensures x in d.owner && d.owner[x] == k { assert HoldOk(d, k, x); }
  }

  // -- Operations.

  function Pop(d: Disk): Disk
    requires d.free != [] && d.taking.Taking?
  {
    d.(free := d.free[1..], taking := d.taking.(slots := d.taking.slots + [d.free[0]]),
       owner := d.owner[d.free[0] := d.taking.key])
  }

  function Unranked(d: Disk, k: BlockKey): Disk {
    d.(unscored := d.unscored - {k}, evictable := d.evictable - {k},
       evictableSlots := d.evictableSlots - if k in d.evictable && k in d.resident then |d.resident[k].slots| else 0)
  }

  function Ranked(d: Disk, k: BlockKey, scored: bool): Disk
    requires k in d.resident
  {
    if !scored then d.(unscored := d.unscored + {k})
    else d.(unscored := d.unscored - {k}, evictable := d.evictable + {k},
            evictableSlots := if k in d.evictable then d.evictableSlots else d.evictableSlots + |d.resident[k].slots|)
  }

  function Without(owner: map<nat, BlockKey>, slots: seq<nat>): map<nat, BlockKey> {
    map x | x in owner && x !in slots :: owner[x]
  }

  function Evicted(d: Disk, k: BlockKey): Disk
    requires k in d.resident
  {
    var t := Unranked(d, k);
    t.(resident := d.resident - {k}, free := d.free + d.resident[k].slots,
       owner := Without(d.owner, d.resident[k].slots))
  }

  function Dropped(d: Disk): Disk
    requires d.taking.Taking?
  {
    d.(free := d.free + d.taking.slots, owner := Without(d.owner, d.taking.slots), taking := NoTaking)
  }

  function Reserved(d: Disk): Disk
    requires d.taking.Taking?
  {
    d.(pending := d.pending[d.taking.key := d.taking.slots], taking := NoTaking)
  }

  function RolledBack(d: Disk, k: BlockKey): Disk
    requires k in d.pending
  {
    d.(pending := d.pending - {k}, free := d.free + d.pending[k], owner := Without(d.owner, d.pending[k]))
  }

  function Committed(d: Disk, k: BlockKey, scored: bool): Disk
    requires k in d.pending
  {
    Ranked(d.(pending := d.pending - {k}, resident := d.resident[k := Resident(d.pending[k], 0)]), k, scored)
  }

  function Claimed(d: Disk, k: BlockKey): Disk
    requires k in d.resident
  {
    var t := Unranked(d, k);
    t.(resident := d.resident[k := d.resident[k].(claims := d.resident[k].claims + 1)])
  }

  function Released(d: Disk, k: BlockKey, scored: bool): Disk
    requires k in d.resident && d.resident[k].claims > 0
  {
    var t := d.(resident := d.resident[k := d.resident[k].(claims := d.resident[k].claims - 1)]);
    if t.resident[k].claims > 0 then t else Ranked(t, k, scored)
  }

  lemma PopKeeps(d: Disk)
    requires Inv(d) && d.free != [] && d.taking.Taking?
    ensures Inv(Pop(d))
  {
    var t, x := Pop(d), d.free[0];
    assert d.free == [x] + t.free;
    assert multiset(d.free) == multiset{x} + multiset(t.free);
    assert SlotOk(d, x);
    forall y ensures SlotOk(t, y) { assert SlotOk(d, y); }
    forall k, y ensures HoldOk(t, k, y) { assert HoldOk(d, k, y) && HoldOk(d, k, x); }
    forall k ensures KeyOk(t, k) { assert KeyOk(d, k) && HoldOk(d, k, x); }
  }

  lemma DroppedKeeps(d: Disk)
    requires Inv(d) && d.taking.Taking?
    ensures Inv(Dropped(d))
  {
    var t := Dropped(d);
    forall y ensures SlotOk(t, y) {
      assert SlotOk(d, y) && HoldOk(d, d.taking.key, y) && KeyOk(d, d.taking.key);
      CountOnce(d.taking.slots, y);
    }
    forall k, y ensures HoldOk(t, k, y) {
      assert HoldOk(d, k, y) && HoldOk(d, d.taking.key, y) && KeyOk(d, d.taking.key);
    }
    forall k ensures KeyOk(t, k) { assert KeyOk(d, k); }
  }

  lemma {:induction false} CountOnce(s: seq<nat>, x: nat)
    requires NoRepeats(s)
    ensures multiset(s)[x] == if x in s then 1 else 0
  {
    if s != [] {
      assert s == [s[0]] + s[1..];
      CountOnce(s[1..], x);
    }
  }

  lemma ReservedKeeps(d: Disk)
    requires Inv(d) && d.taking.Taking? && d.taking.slots != []
    ensures Inv(Reserved(d))
  {
    var t := Reserved(d);
    assert KeyOk(d, d.taking.key);
    forall y ensures SlotOk(t, y) { assert SlotOk(d, y); }
    forall k, y ensures HoldOk(t, k, y) { assert HoldOk(d, k, y); }
    forall k ensures KeyOk(t, k) { assert KeyOk(d, k); }
  }

  lemma RolledBackKeeps(d: Disk, key: BlockKey)
    requires Inv(d) && key in d.pending
    ensures Inv(RolledBack(d, key))
  {
    var t := RolledBack(d, key);
    assert KeyOk(d, key);
    forall y ensures SlotOk(t, y) {
      assert SlotOk(d, y) && HoldOk(d, key, y);
      CountOnce(d.pending[key], y);
    }
    forall k, y ensures HoldOk(t, k, y) { assert HoldOk(d, k, y) && HoldOk(d, key, y); }
    forall k ensures KeyOk(t, k) { assert KeyOk(d, k); }
  }

  lemma UnrankedSum(d: Disk, key: BlockKey)
    requires d.evictableSlots == SumSlots(d.resident, d.evictable) && (key in d.evictable ==> key in d.resident)
    ensures Unranked(d, key).evictableSlots == SumSlots(d.resident, d.evictable - {key})
  {
    if key in d.evictable {
      SumRemove(d.resident, d.evictable, key);
    } else {
      assert d.evictable - {key} == d.evictable;
    }
  }

  lemma RankedSum(d: Disk, key: BlockKey, scored: bool)
    requires d.evictableSlots == SumSlots(d.resident, d.evictable) && key in d.resident
    ensures Ranked(d, key, scored).evictableSlots == SumSlots(d.resident, Ranked(d, key, scored).evictable)
  {
    if scored {
      if key in d.evictable {
        assert d.evictable + {key} == d.evictable;
      } else {
        SumRemove(d.resident, d.evictable + {key}, key);
        assert d.evictable + {key} - {key} == d.evictable;
      }
    }
  }

  lemma EvictedKeeps(d: Disk, key: BlockKey)
    requires Inv(d) && key in d.evictable && key in d.resident
    ensures Inv(Evicted(d, key))
  {
    var t := Evicted(d, key);
    assert KeyOk(d, key);
    UnrankedSum(d, key);
    SumSame(d.resident, t.resident, t.evictable);
    forall y ensures SlotOk(t, y) {
      assert SlotOk(d, y) && HoldOk(d, key, y);
      CountOnce(d.resident[key].slots, y);
    }
    forall k, y ensures HoldOk(t, k, y) { assert HoldOk(d, k, y) && HoldOk(d, key, y); }
    forall k ensures KeyOk(t, k) { assert KeyOk(d, k); }
  }

  lemma CommittedKeeps(d: Disk, key: BlockKey, scored: bool)
    requires Inv(d) && key in d.pending
    ensures Inv(Committed(d, key, scored))
  {
    var t := Committed(d, key, scored);
    assert KeyOk(d, key);
    var mid := d.(pending := d.pending - {key}, resident := d.resident[key := Resident(d.pending[key], 0)]);
    SumSame(d.resident, mid.resident, d.evictable);
    RankedSum(mid, key, scored);
    forall y ensures SlotOk(t, y) { assert SlotOk(d, y); }
    forall k, y ensures HoldOk(t, k, y) { assert HoldOk(d, k, y); }
    forall k ensures KeyOk(t, k) { assert KeyOk(d, k); }
  }

  lemma ClaimedKeeps(d: Disk, key: BlockKey)
    requires Inv(d) && key in d.resident
    ensures Inv(Claimed(d, key))
  {
    var t := Claimed(d, key);
    assert KeyOk(d, key);
    UnrankedSum(d, key);
    SumSame(d.resident, t.resident, t.evictable);
    forall y ensures SlotOk(t, y) { assert SlotOk(d, y); }
    forall k, y ensures HoldOk(t, k, y) { assert HoldOk(d, k, y); }
    forall k ensures KeyOk(t, k) { assert KeyOk(d, k); }
  }

  lemma ReleasedKeeps(d: Disk, key: BlockKey, scored: bool)
    requires Inv(d) && key in d.resident && d.resident[key].claims > 0
    ensures Inv(Released(d, key, scored))
  {
    var t := Released(d, key, scored);
    assert KeyOk(d, key);
    var mid := d.(resident := d.resident[key := d.resident[key].(claims := d.resident[key].claims - 1)]);
    SumSame(d.resident, mid.resident, d.evictable);
    RankedSum(mid, key, scored);
    forall y ensures SlotOk(t, y) { assert SlotOk(d, y); }
    forall k, y ensures HoldOk(t, k, y) { assert HoldOk(d, k, y); }
    forall k ensures KeyOk(t, k) { assert KeyOk(d, k); }
  }

  /** An unscored key is offered to the policy again. */
  lemma RescoredKeeps(d: Disk, key: BlockKey, scored: bool)
    requires Inv(d) && key in d.unscored && key in d.resident
    ensures Inv(Ranked(d, key, scored))
  {
    var t := Ranked(d, key, scored);
    assert KeyOk(d, key);
    RankedSum(d, key, scored);
    forall y ensures SlotOk(t, y) { assert SlotOk(d, y); }
    forall k, y ensures HoldOk(t, k, y) { assert HoldOk(d, k, y); }
    forall k ensures KeyOk(t, k) { assert KeyOk(d, k); }
  }

  lemma StartKeeps(d: Disk, key: BlockKey)
    requires Inv(d) && d.taking.NoTaking? && key !in d.resident && key !in d.pending
    ensures Inv(d.(taking := Taking(key, [])))
  {
    var t := d.(taking := Taking(key, []));
    forall y ensures SlotOk(t, y) { assert SlotOk(d, y); }
    forall k, y ensures HoldOk(t, k, y) { assert HoldOk(d, k, y); }
    forall k ensures KeyOk(t, k) { assert KeyOk(d, k); }
  }

  /** Each scan of candidates settles on another evictable key. */
  ghost predicate DifferentVictims(victims: seq<Option<BlockKey>>, evictable: set<BlockKey>) {
    && (forall i :: 0 <= i < |victims| ==> victims[i].Some? && victims[i].value in evictable)
    && (forall i, j :: 0 <= i < j < |victims| ==> victims[i] != victims[j])
  }

  class DiskTier {
    const total: nat
    var free: seq<nat>
    var resident: map<BlockKey, Resident>
    var pending: map<BlockKey, seq<nat>>
    var evictable: set<BlockKey>
    var unscored: set<BlockKey>
    var evictableSlots: int
    ghost var taking: Taking
    ghost var owner: map<nat, BlockKey>

    ghost function State(): Disk
      reads this
    {
      Disk(total, free, resident, pending, taking, evictable, unscored, evictableSlots, owner)
    }

    constructor (total: nat)
      ensures Inv(State()) && this.total == total && resident == map[] && pending == map[] && taking.NoTaking?
    {
      this.total := total;
      free, resident, pending, evictable, unscored, evictableSlots := seq(total, i => i), map[], map[], {}, {}, 0;
      taking, owner := NoTaking, map[];
      new;
      var d := State();
      forall x ensures SlotOk(d, x) { RangeCount(total, x); }
      forall k, x ensures HoldOk(d, k, x) { }
      forall k ensures KeyOk(d, k) { }
    }

    method Evict(key: BlockKey)
      requires Inv(State()) && key in evictable
      modifies this
      ensures key in old(resident) && Inv(State()) && State() == Evicted(old(State()), key)
      ensures free == old(free) + old(resident)[key].slots && old(resident)[key].slots != []
    {
      assert KeyOk(State(), key);
      EvictedKeeps(State(), key);
      var slots := resident[key].slots;
      unscored, evictable, evictableSlots := unscored - {key}, evictable - {key}, evictableSlots - |slots|;
      resident, free := resident - {key}, free + slots;
      owner := Without(owner, slots);
    }

    /** All or nothing: either the key gets as many different slots as it needs, or every slot
        taken for it goes back. `victims` says what each scan of candidates would settle on. */
    method Reserve(key: BlockKey, required: nat, victims: seq<Option<BlockKey>>) returns (slots: Option<seq<nat>>)
      requires Inv(State()) && taking.NoTaking? && required > 0 && |victims| == required
      modifies this
      ensures Inv(State()) && taking.NoTaking?
      ensures slots.Some? ==>
        && |slots.value| == required && NoRepeats(slots.value)
        && pending == old(pending)[key := slots.value] && key !in old(pending)
      ensures slots.None? ==> pending == old(pending)
      ensures slots.Some? ==> key !in old(resident) && required <= |old(free)| + old(evictableSlots)
      ensures DifferentVictims(victims, old(evictable)) ==>
        (slots.Some? <==>
         key !in old(resident) && key !in old(pending) && required <= |old(free)| + old(evictableSlots))
      ensures required <= |old(free)| && key !in old(resident) && key !in old(pending) ==>
        slots.Some? && resident == old(resident)
    {
      if key in resident || key in pending || required > |free| + evictableSlots {
        return None;
      }
      StartKeeps(State(), key);
      taking := Taking(key, []);
      var got := [];
      for i := 0 to required
        invariant Inv(State()) && taking == Taking(key, got) && pending == old(pending) && |got| == i
        invariant required <= |old(free)| ==> |free| == |old(free)| - i && resident == old(resident)
        invariant DifferentVictims(victims, old(evictable)) ==>
          forall j :: i <= j < required ==> victims[j].value in evictable
      {
        var slot := AllocateSlot(key, got, victims[i]);
        if slot.None? {
          DroppedKeeps(State());
          free, owner, taking := free + got, Without(owner, got), NoTaking;
          return None;
        }
        got := got + [slot.value];
      }
      assert KeyOk(State(), key);
      ReservedKeeps(State());
      pending, taking := pending[key := got], NoTaking;
      slots := Some(got);
    }

    /** One more slot for the reservation being made: a free one, or one gained by evicting the
        block that the scan of candidates settled on. */
    method AllocateSlot(key: BlockKey, got: seq<nat>, victim: Option<BlockKey>) returns (slot: Option<nat>)
      requires Inv(State()) && taking == Taking(key, got)
      modifies this
      ensures Inv(State()) && pending == old(pending)
      ensures slot.None? <==> old(free) == [] && (victim.None? || victim.value !in old(evictable))
      ensures slot.None? ==> State() == old(State())
      ensures forall k :: k in old(evictable) && victim != Some(k) ==> k in evictable
      ensures slot.Some? ==> taking == Taking(key, got + [slot.value])
      ensures old(free) != [] ==> slot.Some? && free == old(free)[1..] && resident == old(resident)
    {
      if free == [] {
        if victim.None? || victim.value !in evictable {
          return None;
        }
        Evict(victim.value);
      }
      slot := Some(free[0]);
      PopKeeps(State());
      taking, owner := taking.(slots := got + [free[0]]), owner[free[0] := key];
      free := free[1..];
    }

    /** A store that failed gives its slots back; one already resolved is left alone. */
    method Rollback(key: BlockKey)
      requires Inv(State())
      modifies this
      ensures Inv(State())
      ensures State() == if key in old(pending) then RolledBack(old(State()), key) else old(State())
    {
      if key in pending {
        RolledBackKeeps(State(), key);
        free, owner := free + pending[key], Without(owner, pending[key]);
        pending := pending - {key};
      }
    }

    /** A reader claims a resident key; false means there is nothing to read. */
    method Claim(key: BlockKey) returns (ok: bool)
      requires Inv(State())
      modifies this
      ensures ok <==> key in old(resident)
      ensures Inv(State()) && State() == if ok then Claimed(old(State()), key) else old(State())
    {
      if key !in resident {
        return false;
      }
      ClaimedKeeps(State(), key);
      RemoveEvictable(key);
      resident := resident[key := resident[key].(claims := resident[key].claims + 1)];
      return true;
    }

    method RemoveEvictable(key: BlockKey)
      requires key in resident
      modifies this`unscored, this`evictable, this`evictableSlots
      ensures State() == Unranked(old(State()), key)
    {
      unscored := unscored - {key};
      if key in evictable {
        evictable, evictableSlots := evictable - {key}, evictableSlots - |resident[key].slots|;
      }
    }

    /** The claim goes back; the last one makes the key evictable again. */
    method ReleaseClaim(key: BlockKey, scored: bool)
      requires Inv(State()) && key in resident && resident[key].claims > 0
      modifies this
      ensures Inv(State()) && State() == Released(old(State()), key, scored)
    {
      ReleasedKeeps(State(), key, scored);
      resident := resident[key := resident[key].(claims := resident[key].claims - 1)];
      if resident[key].claims == 0 {
        MakeEvictable(key, scored);
      }
    }

    method MakeEvictable(key: BlockKey, scored: bool)
      requires key in resident
      modifies this`unscored, this`evictable, this`evictableSlots
      ensures State() == Ranked(old(State()), key, scored)
    {
      if scored {
        unscored := unscored - {key};
        if key !in evictable {
          evictable, evictableSlots := evictable + {key}, evictableSlots + |resident[key].slots|;
        }
      } else {
        unscored := unscored + {key};
      }
    }

    /** `_retry_unscored`: every unscored key is offered to the policy again. */
    method RetryUnscored(scored: set<BlockKey>)
      requires Inv(State())
      modifies this`unscored, this`evictable, this`evictableSlots
      ensures Inv(State())
      ensures evictable == old(evictable) + (old(unscored) * scored) && unscored == old(unscored) - scored
    {
      var left := unscored;
      while left != {}
        invariant Inv(State()) && left <= old(unscored)
        invariant evictable == old(evictable) + ((old(unscored) - left) * scored)
        invariant unscored == old(unscored) - ((old(unscored) - left) * scored)
      {
        var key :| key in left;
        assert KeyOk(State(), key);
        RescoredKeeps(State(), key, key in scored);
        MakeEvictable(key, key in scored);
        left := left - {key};
      }
    }

    /** A finished store becomes resident and evictable; false is the unknown-key error. */
    method Commit(key: BlockKey, scored: bool) returns (ok: bool)
      requires Inv(State())
      modifies this
      ensures ok <==> key in old(pending)
      ensures Inv(State()) && State() == if ok then Committed(old(State()), key, scored) else old(State())
    {
      if key !in pending {
        return false;
      }
      assert KeyOk(State(), key);
      CommittedKeeps(State(), key, scored);
      var slots := pending[key];
      pending, resident := pending - {key}, resident[key := Resident(slots, 0)];
      MakeEvictable(key, scored);
      return true;
    }
  }

  lemma {:induction false} RangeCount(n: nat, x: nat)
    ensures multiset(seq(n, i => i))[x] == if x < n then 1 else 0
  {
    var s := seq(n, i => i);
    assert NoRepeats(s);
    CountOnce(s, x);
    assert x < n ==> s[x] == x;
  }
}
