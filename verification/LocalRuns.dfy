/**
 The local operations at work on the residencies. Every step of an operation's tables takes or
 gives back at most one claim on the residency of a key; everything else the residencies do
 goes on in between.
 */
module LocalRuns {
  import opened Prelude
  import P = Pools
  import PoolRuns
  import opened LocalOps
  import LocalOpsSafety
  import opened LocalClaims
  import LocalVerdicts

  datatype Local = Local(pool: P.Pool, t: Tables)

  datatype Move = OnPool(p: P.Step) | OnTables(step: Step)

  predicate Resident(s: Local, k: BlockKey) { k in s.pool.resident && s.pool.resident[k] in s.pool.phase }

  /** Something of the block can be read. */
  predicate Readable(s: Local, k: BlockKey) {
    Resident(s, k) && s.pool.phase[s.pool.resident[k]] in {P.Partial, P.Complete}
  }

  predicate Discarded(s: Local, k: BlockKey) { Resident(s, k) && s.pool.phase[s.pool.resident[k]] == P.Discarding }

  predicate Claimable(s: Local, k: BlockKey) { Resident(s, k) && !Discarded(s, k) }

  /** What the call sites look at in the residency before they go on. A failed result may be set
      for a delivery that does not copy the key, or whenever the block is discarded. */
  predicate CallSite(s: Local, step: Step) {
    match step
    case Settle(o, k, ok) => IsDelivery(s.t, o) ==> k !in s.t.ops[o].active || Discarded(s, k)
    case Grant(o, k, h, id) => Claimable(s, k) && id == s.pool.resident[k]
    case Await(o, k) => Claimable(s, k)
    case StartDeposit(o, k, c) => Claimable(s, k)
    case StartDelivery(o, k, c) => Readable(s, k)
    case StartFill(o, k, id) => Claimable(s, k) && id == s.pool.resident[k] && !(k in s.t.fills && s.t.fills[k] == id)
    case TakeSource(o, k, id) => Claimable(s, k) && id == s.pool.resident[k]
    case _ => true
  }

  predicate Offered(s: Local, m: Move) {
    match m
    case OnPool(p) => P.Enabled(s.pool, p) && !p.Claim? && !p.Unclaim?
    case OnTables(step) => LocalOps.Offered(s.t, step) && P.Calm(s.pool) && CallSite(s, step)
  }

  /** The claim that a step gives back is on the residency it was taken on, which is still its
      key's and is still counted; a copy that is read from is still readable. Else the code
      raises. */
  predicate Works(s: Local, m: Move)
    requires Offered(s, m)
  {
    match m
    case OnPool(p) => true
    case OnTables(step) =>
      && LocalOps.Works(s.t, step)
      && (match EffectOf(s.t, step)
          case Stay => true
          case Take(k) => P.Enabled(s.pool, P.Claim(k))
          case Give(k) => k in s.pool.resident && P.Enabled(s.pool, P.Unclaim(s.pool.resident[k])))
      && (match step
          case Release(h) => s.pool.resident[s.t.public[h].key] == s.t.public[h].id
          case EndFill(k, ok) => s.pool.resident[k] == s.t.fills[k]
          case DropSource(o, k) => s.pool.resident[k] == s.t.sources[Source(o, k)]
          case EndDelivery(c, k, ok) => Readable(s, k)
          case _ => true)
  }

  /** Committing an eviction is taken up elsewhere; here it leaves its victims alone. */
  predicate Enabled(s: Local, m: Move) {
    Offered(s, m) && Works(s, m) && (m == OnPool(P.Commit) ==> P.Undisturbed(s.pool))
  }

  function Effected(pool: P.Pool, e: Effect): P.Pool
    requires e.Take? ==> P.Enabled(pool, P.Claim(e.key))
    requires e.Give? ==> e.key in pool.resident && P.Enabled(pool, P.Unclaim(pool.resident[e.key]))
  {
    match e
    case Stay => pool
    case Take(k) => P.ApplyClaim(pool, k)
    case Give(k) => P.ApplyUnclaim(pool, pool.resident[k])
  }

  function Apply(s: Local, m: Move): Local
    requires Enabled(s, m)
  {
    match m
    case OnPool(p) => s.(pool := P.Apply(s.pool, p))
    case OnTables(step) => Local(Effected(s.pool, EffectOf(s.t, step)), LocalOps.Apply(s.t, step))
  }

  // -- The invariant.

  /** A residency's claim count is the number of claims the tables name. */
  ghost predicate CountOk(s: Local, k: BlockKey) {
    if k in s.pool.resident then s.pool.claims[s.pool.resident[k]] == |HoldersOf(s.t, k)| else HoldersOf(s.t, k) == {}
  }

  ghost predicate NamesOf(s: Local, k: BlockKey, id: nat) { k in s.pool.resident && s.pool.resident[k] == id }

  ghost predicate HandleOk(s: Local, h: nat) { h in s.t.public ==> NamesOf(s, s.t.public[h].key, s.t.public[h].id) }

  ghost predicate SourceOk(s: Local, e: Source) { e in s.t.sources ==> NamesOf(s, e.key, s.t.sources[e]) }

  ghost predicate FillOk(s: Local, k: BlockKey) { k in s.t.fills ==> NamesOf(s, k, s.t.fills[k]) }

  ghost predicate ReadOk(s: Local, c: CopyId, k: BlockKey) {
    c in s.t.copies && s.t.copies[c].deliver && k in s.t.copies[c].keys ==> Readable(s, k)
  }

  ghost predicate Links(s: Local) {
    && (forall h :: HandleOk(s, h)) && (forall e :: SourceOk(s, e)) && (forall k :: FillOk(s, k))
    && (forall c, k :: ReadOk(s, c, k))
  }

  ghost predicate Inv(s: Local) { P.Inv(s.pool) && LocalOps.Inv(s.t) && (forall k :: CountOk(s, k)) && Links(s) }

  // -- Residencies that are claimed stay where they are.

  /** From one pool to the next, the residency of a claimed key is the same and no less readable. */
  ghost predicate Stays(a: P.Pool, b: P.Pool, k: BlockKey) {
    k in a.resident ==>
      && k in b.resident && b.resident[k] == a.resident[k]
      && (a.resident[k] in a.phase && a.phase[a.resident[k]] in {P.Partial, P.Complete} ==>
          b.resident[k] in b.phase && b.phase[b.resident[k]] in {P.Partial, P.Complete})
  }

  /** What a step of the residencies alone may do to one key. */
  ghost predicate Framed(a: P.Pool, b: P.Pool, k: BlockKey) {
    && b.claims == a.claims
    && (k in a.resident && a.resident[k] in a.claims ==> Stays(a, b, k))
    && (k in a.resident && k in b.resident ==> b.resident[k] == a.resident[k])
    && (k !in a.resident && k in b.resident ==> b.resident[k] !in a.claims)
  }

  lemma QuietFrame(pool: P.Pool, p: P.Step, k: BlockKey)
    requires P.Inv(pool) && P.Enabled(pool, p) && !p.Claim? && PoolRuns.IsQuiet(p)
    ensures Framed(pool, P.Apply(pool, p), k)
  {
    PoolRuns.QuietStep(pool, p);
  }

  lemma PoolFrame(pool: P.Pool, p: P.Step, k: BlockKey)
    requires P.Inv(pool) && P.Enabled(pool, p) && !p.Claim? && !p.Unclaim?
    ensures Framed(pool, P.Apply(pool, p), k)
  {
    if PoolRuns.IsQuiet(p) {
      QuietFrame(pool, p, k);
    } else {
      match p
      case Reserve(key, id, slots) => assert P.ClaimOk(pool, id);
      case DrainNext =>
      case Free =>
      case Evict => assert P.OwnerOk(pool, pool.committing[0]);
    }
  }

  lemma GiveFrame(pool: P.Pool, k: BlockKey, x: BlockKey)
    requires P.Inv(pool) && k in pool.resident && P.Enabled(pool, P.Unclaim(pool.resident[k]))
    ensures var b, id := P.ApplyUnclaim(pool, pool.resident[k]), pool.resident[k];
      && b.claims == pool.claims - multiset{id}
      && (x != k || id in b.claims ==> Stays(pool, b, x))
      && (x in b.resident ==> x in pool.resident && b.resident[x] == pool.resident[x])
  {
    assert P.KeyOk(pool, k);
  }

  /** The claim counts follow the tables. */
  lemma CountsKeep(s: Local, m: Move, x: BlockKey)
    requires Inv(s) && Enabled(s, m)
    ensures CountOk(Apply(s, m), x)
  {
    var t := Apply(s, m);
    assert CountOk(s, x);
    match m
    case OnPool(p) =>
      PoolFrame(s.pool, p, x);
    case OnTables(step) =>
      StepMoves(s.t, step, x);
      assert x in s.pool.resident ==> P.KeyOk(s.pool, x);
      match EffectOf(s.t, step) {
        case Stay =>
        case Take(k) => assert P.KeyOk(s.pool, k);
        case Give(k) =>
          assert P.KeyOk(s.pool, k);
          GiveFrame(s.pool, k, x);
      }
  }

  /** While someone holds a claim on a key, its residency stays. */
  lemma HeldStays(s: Local, m: Move, h: Holder, x: BlockKey)
    requires Inv(s) && Enabled(s, m) && Holds(s.t, h, x) && Holds(Apply(s, m).t, h, x)
    ensures x in s.pool.resident && Stays(s.pool, Apply(s, m).pool, x)
  {
    var t := Apply(s, m);
    assert CountOk(s, x) && h in HoldersOf(s.t, x);
    CountsKeep(s, m, x);
    assert h in HoldersOf(t.t, x);
    match m
    case OnPool(p) => PoolFrame(s.pool, p, x);
    case OnTables(step) =>
      match EffectOf(s.t, step) {
        case Stay =>
        case Take(k) =>
        case Give(k) => GiveFrame(s.pool, k, x);
      }
  }

  // -- Entries that name a residency keep naming their key's residency.

  lemma HandleFrame(t: Tables, step: Step)
    requires LocalOps.Enabled(t, step)
    ensures var u := LocalOps.Apply(t, step);
      if step.Grant? then u.public == t.public[step.handle := Entry(step.key, step.id)]
      else forall h :: h in u.public ==> h in t.public && u.public[h] == t.public[h]
  {
  }

  lemma SourceFrame(t: Tables, step: Step)
    requires LocalOps.Enabled(t, step)
    ensures var u := LocalOps.Apply(t, step);
      if step.TakeSource? then u.sources == t.sources[Source(step.op, step.key) := step.id]
      else forall e :: e in u.sources ==> e in t.sources && u.sources[e] == t.sources[e]
  {
  }

  lemma FillFrame(t: Tables, step: Step)
    requires LocalOps.Enabled(t, step)
    ensures var u := LocalOps.Apply(t, step);
      if step.StartFill? then u.fills == t.fills[step.key := step.id]
      else forall k :: k in u.fills ==> k in t.fills && u.fills[k] == t.fills[k]
  {
  }

  lemma HandleKeeps(s: Local, m: Move, h: nat)
    requires Inv(s) && Enabled(s, m)
    ensures HandleOk(Apply(s, m), h)
  {
    var t := Apply(s, m);
    assert HandleOk(s, h);
    if m.OnTables? {
      HandleFrame(s.t, m.step);
    }
    if h in t.t.public && h in s.t.public {
      HeldStays(s, m, ByHandle(h), s.t.public[h].key);
    }
  }

  lemma SourceKeeps(s: Local, m: Move, e: Source)
    requires Inv(s) && Enabled(s, m)
    ensures SourceOk(Apply(s, m), e)
  {
    var t := Apply(s, m);
    assert SourceOk(s, e) && Source(e.op, e.key) == e;
    if m.OnTables? {
      SourceFrame(s.t, m.step);
    }
    if e in t.t.sources && e in s.t.sources {
      HeldStays(s, m, BySource(e.op), e.key);
    }
  }

  lemma FillKeeps(s: Local, m: Move, k: BlockKey)
    requires Inv(s) && Enabled(s, m)
    ensures FillOk(Apply(s, m), k)
  {
    var t := Apply(s, m);
    assert FillOk(s, k);
    if m.OnTables? {
      FillFrame(s.t, m.step);
    }
    if k in t.t.fills && k in s.t.fills {
      HeldStays(s, m, ByFill, k);
    }
  }

  /** Whatever a delivery copies is claimed: by the delivery, or by its copy alone. */
  lemma CopiedIsHeld(t: Tables, c: CopyId, k: BlockKey)
    requires LocalOps.Inv(t) && c in t.copies && t.copies[c].deliver && k in t.copies[c].keys
    ensures Holds(t, ByOp(t.copies[c].op), k)
  {
    assert CopyOk(t, c) && OpOk(t, t.copies[c].op);
    assert InFlight(t, t.copies[c].op, k);
  }

  ghost predicate Delivers(t: Tables, c: CopyId, k: BlockKey) {
    c in t.copies && t.copies[c].deliver && k in t.copies[c].keys
  }

  /** A key is copied for a delivery because it was before, or because this step began it. */
  lemma CopyFrame(t: Tables, step: Step, c: CopyId, k: BlockKey)
    requires LocalOps.Inv(t) && LocalOps.Enabled(t, step) && Delivers(LocalOps.Apply(t, step), c, k)
    ensures (Delivers(t, c, k) && LocalOps.Apply(t, step).copies[c].op == t.copies[c].op)
      || (step.StartDelivery? && step.key == k)
  {
    if LocalVerdicts.TouchesCopies(step) {
      TouchedFrame(t, step, c, k);
    } else {
      LocalVerdicts.SameCopies(t, step);
    }
  }

  lemma TouchedFrame(t: Tables, step: Step, c: CopyId, k: BlockKey)
    requires LocalOps.Inv(t) && LocalOps.Enabled(t, step) && LocalVerdicts.TouchesCopies(step)
    requires Delivers(LocalOps.Apply(t, step), c, k)
    ensures (Delivers(t, c, k) && LocalOps.Apply(t, step).copies[c].op == t.copies[c].op)
      || (step.StartDelivery? && step.key == k)
  {
    assert c in t.copies ==> CopyOk(t, c);
    LocalVerdicts.TouchedCopies(t, step);
  }

  lemma ReadKeeps(s: Local, m: Move, c: CopyId, k: BlockKey)
    requires Inv(s) && Enabled(s, m)
    ensures ReadOk(Apply(s, m), c, k)
  {
    var t := Apply(s, m);
    assert ReadOk(s, c, k);
    if c in t.t.copies && t.t.copies[c].deliver && k in t.t.copies[c].keys {
      if m.OnTables? {
        CopyFrame(s.t, m.step, c, k);
        LocalOpsSafety.StepKeeps(s.t, m.step);
      }
      if c in s.t.copies && k in s.t.copies[c].keys && t.t.copies[c].op == s.t.copies[c].op && s.t.copies[c].deliver {
        CopiedIsHeld(s.t, c, k);
        CopiedIsHeld(t.t, c, k);
        HeldStays(s, m, ByOp(s.t.copies[c].op), k);
      }
    }
  }

  lemma PoolKeeps(s: Local, m: Move)
    requires Inv(s) && Enabled(s, m)
    ensures P.Inv(Apply(s, m).pool)
  {
    match m
    case OnPool(p) => PoolRuns.StepKeeps(s.pool, p);
    case OnTables(step) =>
      match EffectOf(s.t, step) {
        case Stay =>
        case Take(k) => PoolRuns.StepKeeps(s.pool, P.Claim(k));
        case Give(k) => PoolRuns.StepKeeps(s.pool, P.Unclaim(s.pool.resident[k]));
      }
  }

  lemma StepKeeps(s: Local, m: Move)
    requires Inv(s) && Enabled(s, m)
    ensures Inv(Apply(s, m))
  {
    var t := Apply(s, m);
    PoolKeeps(s, m);
    if m.OnTables? {
      LocalOpsSafety.StepKeeps(s.t, m.step);
    }
    forall k ensures CountOk(t, k) && FillOk(t, k) { CountsKeep(s, m, k); FillKeeps(s, m, k); }
    forall h ensures HandleOk(t, h) { HandleKeeps(s, m, h); }
    forall e ensures SourceOk(t, e) { SourceKeeps(s, m, e); }
    forall c, k ensures ReadOk(t, c, k) { ReadKeeps(s, m, c, k); }
  }
}
