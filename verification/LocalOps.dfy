/**
 The operations of local DRAM and the tables in which they keep their claims: pending deposits,
 fetches and deliveries, copies in flight, fills owed by another backend, public handles, and
 the sources other operations read from. Finishing an operation gives claims back, that can
 free slots, and that resumes waiters which finish further operations; so each step here is a
 stretch of code that nothing else can come into, and the frames that will come back to a
 delivery are part of the state.
 */
module LocalOps {
  import opened Prelude

  type OpId = nat
  type CopyId = nat

  datatype Kind = Deposit | Fetch | Deliver

  datatype Op = Op(
    kind: Kind,
    keys: set<BlockKey>,
    results: map<BlockKey, bool>,
    active: set<BlockKey>,
    claimed: set<BlockKey>,
    asked: set<BlockKey>)

  /** Keys leave a copy as its end is worked through. `ending` says that this has begun, and
      whether the delivery was then found pending. */
  datatype Copy = Copy(op: OpId, deliver: bool, keys: set<BlockKey>, reported: bool, ending: Option<bool>)

  /** A claim that names the residency it was taken on. */
  datatype Entry = Entry(key: BlockKey, id: nat)

  datatype Source = Source(op: nat, key: BlockKey)

  datatype Completion = Completion(op: OpId, results: map<BlockKey, bool>)

  datatype Tables = Tables(
    ops: map<OpId, Op>,
    pending: set<OpId>,
    copies: map<CopyId, Copy>,
    public: map<nat, Entry>,
    sources: map<Source, nat>,
    fills: map<BlockKey, nat>,
    leaving: map<OpId, set<BlockKey>>,
    owed: multiset<OpId>,
    done: seq<Completion>)

  const NOTHING := Tables(map[], {}, map[], map[], map[], map[], map[], multiset{}, [])

  datatype Step =
    | Begin(op: OpId, kind: Kind, keys: set<BlockKey>)
    | Settle(op: OpId, key: BlockKey, ok: bool)
    | Grant(op: OpId, key: BlockKey, handle: nat, id: nat)
    | Await(op: OpId, key: BlockKey)
    | StartDeposit(op: OpId, key: BlockKey, copy: CopyId)
    | StartDelivery(op: OpId, key: BlockKey, copy: CopyId)
    | StartFill(op: OpId, key: BlockKey, id: nat)
    | EndFill(key: BlockKey, ok: bool)
    | Abandon(copy: CopyId)
    | EndDeposit(copy: CopyId, key: BlockKey, ok: bool)
    | Arrive(copy: CopyId)
    | EndDelivery(copy: CopyId, key: BlockKey, ok: bool)
    | Collect(op: OpId)
    | ComeBack(op: OpId)
    | Finish(op: OpId)
    | GiveBack(op: OpId, key: BlockKey)
    | Complete(op: OpId)
    | Release(handle: nat)
    | TakeSource(op: nat, key: BlockKey, id: nat)
    | DropSource(op: nat, key: BlockKey)

  // -- What a step does.

  predicate Unresolved(t: Tables, o: OpId, k: BlockKey) {
    o in t.pending && o in t.ops && k in t.ops[o].keys && k !in t.ops[o].results
  }

  predicate IsDelivery(t: Tables, o: OpId) { o in t.ops && t.ops[o].kind == Deliver }

  /** A copy that has not been reported and to which the operation may still add keys. */
  predicate CanJoin(t: Tables, o: OpId, c: CopyId) {
    c in t.copies ==> t.copies[c].op == o && !t.copies[c].reported && t.copies[c].ending.None?
  }

  /** The call sites' own conditions. */
  predicate Offered(t: Tables, step: Step) {
    match step
    case Begin(o, kind, keys) => o !in t.ops && (kind == Deliver ==> keys != {})
    case Settle(o, k, ok) => Unresolved(t, o, k) && (ok ==> t.ops[o].kind == Deposit)
    case Grant(o, k, h, id) => Unresolved(t, o, k) && t.ops[o].kind != Deliver && h !in t.public
    case Await(o, k) => Unresolved(t, o, k) && t.ops[o].kind != Deposit && k !in t.ops[o].claimed
    case StartDeposit(o, k, c) =>
      Unresolved(t, o, k) && t.ops[o].kind == Deposit && k !in t.ops[o].active && CanJoin(t, o, c)
    case StartDelivery(o, k, c) =>
      && Unresolved(t, o, k) && t.ops[o].kind == Deliver && k in t.ops[o].claimed
      && k !in t.ops[o].active && CanJoin(t, o, c)
    case StartFill(o, k, id) => Unresolved(t, o, k) && t.ops[o].kind == Fetch && k in t.ops[o].claimed
    case EndFill(k, ok) => k in t.fills
    case Abandon(c) => c in t.copies && !t.copies[c].reported && t.copies[c].ending.None?
    case EndDeposit(c, k, ok) => c in t.copies && k in t.copies[c].keys && !t.copies[c].deliver
    case Arrive(c) => c in t.copies && t.copies[c].deliver && t.copies[c].ending.None?
    case EndDelivery(c, k, ok) =>
      c in t.copies && t.copies[c].ending.Some? && k in t.copies[c].keys && (t.copies[c].reported ==> !ok)
    case Collect(o) => IsDelivery(t, o) && o in t.pending
    case ComeBack(o) => o in t.owed && o in t.ops
    case Finish(o) => o in t.ops && t.ops[o].kind != Deliver && o in t.pending && t.ops[o].results.Keys == t.ops[o].keys
    case GiveBack(o, k) => o in t.leaving && k in t.leaving[o]
    case Complete(o) => o in t.leaving && t.leaving[o] == {} && o in t.ops
    case Release(h) => h in t.public
    case TakeSource(o, k, id) => Source(o, k) !in t.sources
    case DropSource(o, k) => Source(o, k) in t.sources
  }

  /** What must hold for the code not to raise. */
  predicate Works(t: Tables, step: Step) {
    match step
    case Settle(o, k, ok) => IsDelivery(t, o) ==> k !in t.ops[o].active
    case StartFill(o, k, id) => k !in t.fills
    case Abandon(c) => c in t.copies && t.copies[c].op in t.ops && (t.copies[c].deliver ==> t.copies[c].op in t.pending)
    case EndDeposit(c, k, ok) => c in t.copies && t.copies[c].op in t.ops && k in t.ops[t.copies[c].op].active
    case EndDelivery(c, k, ok) =>
      && c in t.copies && t.copies[c].op in t.ops
      && (t.copies[c].ending == Some(true) ==> k in t.ops[t.copies[c].op].claimed)
    case ComeBack(o) => o in t.ops && (t.ops[o].results.Keys == t.ops[o].keys ==> o in t.pending)
    case _ => true
  }

  predicate Enabled(t: Tables, step: Step) { Offered(t, step) && Works(t, step) }

  function Add(t: Tables, o: OpId, k: BlockKey, c: CopyId): map<CopyId, Copy> {
    if c in t.copies then t.copies[c := t.copies[c].(keys := t.copies[c].keys + {k})]
    else t.copies[c := Copy(o, IsDelivery(t, o), {k}, false, None)]
  }

  function Less(t: Tables, c: CopyId, k: BlockKey): map<CopyId, Copy>
    requires c in t.copies
  {
    if t.copies[c].keys == {k} then t.copies - {c} else t.copies[c := t.copies[c].(keys := t.copies[c].keys - {k})]
  }

  function Failed(results: map<BlockKey, bool>, keys: set<BlockKey>): map<BlockKey, bool> {
    results + map k | k in keys :: false
  }

  /** A fill of `k` has ended: whoever asked for it stops waiting, and fails with it. */
  function Told(t: Tables, k: BlockKey, ok: bool): map<OpId, Op> {
    map o | o in t.ops ::
      if o in t.pending && k in t.ops[o].asked then
        t.ops[o].(asked := t.ops[o].asked - {k},
                  results := if ok then t.ops[o].results else t.ops[o].results[k := false])
      else t.ops[o]
  }

  function Update(t: Tables, o: OpId, op: Op): Tables { t.(ops := t.ops[o := op]) }

  function Opened(t: Tables, o: OpId, kind: Kind, keys: set<BlockKey>): Tables {
    var s := Update(t, o, Op(kind, keys, map[], {}, {}, {}));
    s.(pending := s.pending + {o}, owed := if kind == Deliver then s.owed + multiset{o} else s.owed)
  }

  /** Without keys there is nothing to wait for. */
  function Empty(t: Tables, o: OpId, kind: Kind): Tables {
    Update(t, o, Op(kind, {}, map[], {}, {}, {})).(done := t.done + [Completion(o, map[])])
  }

  function ApplyAbandon(t: Tables, c: CopyId): Tables
    requires c in t.copies && t.copies[c].op in t.ops
  {
    var o := t.copies[c].op;
    var s := Update(t, o, t.ops[o].(results := Failed(t.ops[o].results, t.copies[c].keys)));
    s.(copies := t.copies[c := t.copies[c].(reported := true)],
       owed := if t.copies[c].deliver then t.owed + multiset{o} else t.owed)
  }

  function ApplyEndDeposit(t: Tables, c: CopyId, k: BlockKey, ok: bool): Tables
    requires c in t.copies && t.copies[c].op in t.ops
  {
    var o := t.copies[c].op;
    var op := t.ops[o];
    Update(t, o, op.(active := op.active - {k}, results := if k in op.results then op.results else op.results[k := ok]))
      .(copies := Less(t, c, k))
  }

  function ApplyArrive(t: Tables, c: CopyId): Tables
    requires c in t.copies
  {
    t.(copies := t.copies[c := t.copies[c].(ending := Some(t.copies[c].op in t.pending))])
  }

  /** The delivery was pending when its copy came back: it is told. */
  function EndForOp(t: Tables, c: CopyId, k: BlockKey, ok: bool): Tables
    requires c in t.copies && t.copies[c].op in t.ops
  {
    var o := t.copies[c].op;
    var op := t.ops[o];
    Update(t, o, op.(claimed := op.claimed - {k}, active := op.active - {k}, results := op.results[k := ok]))
      .(copies := Less(t, c, k), owed := if t.copies[c].keys == {k} then t.owed + multiset{o} else t.owed)
  }

  function ApplyEndDelivery(t: Tables, c: CopyId, k: BlockKey, ok: bool): Tables
    requires c in t.copies && t.copies[c].op in t.ops
  {
    if t.copies[c].ending == Some(true) then EndForOp(t, c, k, ok) else t.(copies := Less(t, c, k))
  }

  /** An operation leaves the pending table, with what it is to give back. A delivery gives its claims
      back before it is taken out of the table; the order makes no difference, because nothing
      turns to a delivery that has all its results. */
  function Left(t: Tables, o: OpId, back: set<BlockKey>): Tables
    requires o in t.ops
  {
    Update(t, o, t.ops[o].(claimed := {})).(pending := t.pending - {o}, leaving := t.leaving[o := back])
  }

  function ApplyComeBack(t: Tables, o: OpId): Tables
    requires o in t.ops
  {
    var s := t.(owed := t.owed - multiset{o});
    var op := t.ops[o];
    if op.results.Keys != op.keys then s
    else Left(s, o, op.claimed - op.active)
  }

  function ApplyFinish(t: Tables, o: OpId): Tables
    requires o in t.ops
  {
    Left(t, o, t.ops[o].claimed)
  }

  function Apply(t: Tables, step: Step): Tables
    requires Enabled(t, step)
  {
    match step
    case Begin(o, kind, keys) => if keys == {} then Empty(t, o, kind) else Opened(t, o, kind, keys)
    case Settle(o, k, ok) => Update(t, o, t.ops[o].(results := t.ops[o].results[k := ok]))
    case Grant(o, k, h, id) =>
      Update(t, o, t.ops[o].(results := t.ops[o].results[k := true])).(public := t.public[h := Entry(k, id)])
    case Await(o, k) => Update(t, o, t.ops[o].(claimed := t.ops[o].claimed + {k}))
    case StartDeposit(o, k, c) => Update(t, o, t.ops[o].(active := t.ops[o].active + {k})).(copies := Add(t, o, k, c))
    case StartDelivery(o, k, c) => Update(t, o, t.ops[o].(active := t.ops[o].active + {k})).(copies := Add(t, o, k, c))
    case StartFill(o, k, id) => Update(t, o, t.ops[o].(asked := t.ops[o].asked + {k})).(fills := t.fills[k := id])
    case EndFill(k, ok) => t.(ops := Told(t, k, ok), fills := t.fills - {k})
    case Abandon(c) => ApplyAbandon(t, c)
    case EndDeposit(c, k, ok) => ApplyEndDeposit(t, c, k, ok)
    case Arrive(c) => ApplyArrive(t, c)
    case EndDelivery(c, k, ok) => ApplyEndDelivery(t, c, k, ok)
    case Collect(o) => t.(owed := t.owed + multiset{o})
    case ComeBack(o) => ApplyComeBack(t, o)
    case Finish(o) => ApplyFinish(t, o)
    case GiveBack(o, k) => t.(leaving := t.leaving[o := t.leaving[o] - {k}])
    case Complete(o) => t.(leaving := t.leaving - {o}, done := t.done + [Completion(o, t.ops[o].results)])
    case Release(h) => t.(public := t.public - {h})
    case TakeSource(o, k, id) => t.(sources := t.sources[Source(o, k) := id])
    case DropSource(o, k) => t.(sources := t.sources - {Source(o, k)})
  }

  /** What a step does to the claim count of a residency. */
  datatype Effect = Stay | Take(key: BlockKey) | Give(key: BlockKey)

  function EffectOf(t: Tables, step: Step): Effect
    requires Offered(t, step)
  {
    match step
    case Grant(o, k, h, id) => Take(k)
    case Await(o, k) => Take(k)
    case StartDeposit(o, k, c) => Take(k)
    case StartFill(o, k, id) => Take(k)
    case TakeSource(o, k, id) => Take(k)
    case EndFill(k, ok) => Give(k)
    case EndDeposit(c, k, ok) => Give(k)
    case EndDelivery(c, k, ok) => Give(k)
    case GiveBack(o, k) => Give(k)
    case Release(h) => Give(t.public[h].key)
    case DropSource(o, k) => Give(k)
    case _ => Stay
  }

  // -- Who holds a claim.

  datatype Holder = ByHandle(handle: nat) | ByCopy(copy: CopyId) | ByFill | ByOp(op: OpId) | BySource(op: nat)

  ghost predicate InFlight(t: Tables, o: OpId, k: BlockKey) {
    exists c :: c in t.copies && t.copies[c].op == o && k in t.copies[c].keys
  }

  /** An operation's claim on a key: it waits for it, or it is giving it back, or it is a
      delivery that has finished without waiting for its copy. */
  ghost predicate OpHolds(t: Tables, o: OpId, k: BlockKey) {
    && o in t.ops
    && (|| k in t.ops[o].claimed
        || (o in t.leaving && k in t.leaving[o])
        || (IsDelivery(t, o) && o !in t.pending && InFlight(t, o, k)))
  }

  ghost predicate CopyHolds(t: Tables, c: CopyId, k: BlockKey) {
    c in t.copies && !t.copies[c].deliver && k in t.copies[c].keys
  }

  ghost predicate Holds(t: Tables, h: Holder, k: BlockKey) {
    match h
    case ByHandle(handle) => handle in t.public && t.public[handle].key == k
    case ByCopy(c) => CopyHolds(t, c, k)
    case ByFill => k in t.fills
    case ByOp(o) => OpHolds(t, o, k)
    case BySource(o) => Source(o, k) in t.sources
  }

  /** The tables name finitely many holders. */
  ghost function Candidates(t: Tables): set<Holder> {
    (set h | h in t.public :: ByHandle(h)) + (set c | c in t.copies :: ByCopy(c)) + {ByFill}
    + (set o | o in t.ops :: ByOp(o)) + (set e | e in t.sources :: BySource(e.op))
  }

  lemma HolderIsCandidate(t: Tables, h: Holder, k: BlockKey)
    requires Holds(t, h, k)
    ensures h in Candidates(t)
  {
    match h
    case BySource(o) => assert Source(o, k) in t.sources && Source(o, k).op == o;
    case _ =>
  }

  /** All claims on a key, read off the tables. */
  ghost function HoldersOf(t: Tables, k: BlockKey): (r: set<Holder>)
    ensures forall h :: h in r <==> Holds(t, h, k)
  {
    assert forall h :: Holds(t, h, k) ==> h in Candidates(t) by {
      forall h | Holds(t, h, k) ensures h in Candidates(t) { HolderIsCandidate(t, h, k); }
    }
    set h | h in Candidates(t) && Holds(t, h, k)
  }

  // -- The invariant.

  ghost predicate OpOk(t: Tables, o: OpId) {
    && (o in t.pending || o in t.leaving || o in t.owed ==> o in t.ops)
    && (o in t.owed ==> t.ops[o].kind == Deliver)
    && (o in t.ops ==>
        && t.ops[o].results.Keys <= t.ops[o].keys
        && t.ops[o].claimed <= t.ops[o].keys && t.ops[o].asked <= t.ops[o].keys
        && (o !in t.pending ==> t.ops[o].claimed == {} && t.ops[o].results.Keys == t.ops[o].keys)
        && (t.ops[o].kind != Fetch ==> t.ops[o].asked == {})
        && (o in t.leaving ==> o !in t.pending)
        && (IsDelivery(t, o) && o in t.pending ==> t.ops[o].active <= t.ops[o].claimed))
  }

  ghost predicate CopyOk(t: Tables, c: CopyId) {
    c in t.copies ==>
      var copy := t.copies[c];
      && copy.op in t.ops && (copy.deliver <==> IsDelivery(t, copy.op))
      && copy.keys != {} && copy.keys <= t.ops[copy.op].keys
      && (copy.deliver ==> copy.op in t.pending ==> copy.keys <= t.ops[copy.op].active)
      && (!copy.deliver ==> copy.keys <= t.ops[copy.op].active)
      && (copy.deliver && !copy.reported ==> copy.keys !! t.ops[copy.op].results.Keys)
      && (copy.deliver && copy.op in t.leaving ==> copy.keys !! t.leaving[copy.op])
      && (copy.ending.Some? ==> copy.deliver)
      && (copy.ending == Some(false) ==> copy.op !in t.pending)
  }

  ghost predicate ActiveOk(t: Tables, o: OpId, k: BlockKey) {
    IsDelivery(t, o) && o in t.pending && k in t.ops[o].active ==> InFlight(t, o, k)
  }

  ghost predicate Apart(t: Tables, c: CopyId, d: CopyId) {
    c in t.copies && d in t.copies && c != d && t.copies[c].op == t.copies[d].op ==>
      t.copies[c].keys !! t.copies[d].keys
  }

  /** Each operation is pending, or giving back, or has completed. */
  ghost predicate DoneOk(t: Tables, o: OpId) {
    o in t.ops ==> (o in t.pending || o in t.leaving <==> forall i :: 0 <= i < |t.done| ==> t.done[i].op != o)
  }

  ghost predicate Dones(t: Tables) {
    && (forall i :: 0 <= i < |t.done| ==> t.done[i].op in t.ops && t.done[i].results.Keys == t.ops[t.done[i].op].keys)
    && (forall i, j :: 0 <= i < j < |t.done| ==> t.done[i].op != t.done[j].op)
    && (forall o :: DoneOk(t, o))
  }

  ghost predicate Ops(t: Tables) { forall o :: OpOk(t, o) }
  ghost predicate Copies(t: Tables) {
    (forall c :: CopyOk(t, c)) && (forall c, d :: Apart(t, c, d)) && forall o, k :: ActiveOk(t, o, k)
  }

  ghost predicate Inv(t: Tables) { Ops(t) && Copies(t) && Dones(t) }
}
