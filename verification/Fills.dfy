/**
 Filling a residency piece by piece. Deposits and at most one remote fill copy into its slots
 at the same time; a label leaves `pending` when a copy that covers it succeeds. Writer counts
 say how many copies still write each slot.
 */
module Fills {
  import opened Prelude
  import opened Layouts

  datatype FillState = Filling | Ready | Discarding

  /** What starting a deposit or a fetch leads to. */
  datatype Start = Refused | Present(indices: seq<nat>) | Waiting | Started(indices: seq<nat>)

  /** How many copies in flight write slot `i`. */
  ghost function Cover(deposits: map<nat, seq<nat>>, remote: Option<seq<nat>>, i: nat): nat {
    |Covering(deposits, i)| + if remote.Some? && i in remote.value then 1 else 0
  }

  ghost function Covering(deposits: map<nat, seq<nat>>, i: nat): set<nat> {
    set c | c in deposits && i in deposits[c]
  }

  ghost predicate Counted(layout: seq<Label>, writers: seq<nat>, deposits: map<nat, seq<nat>>,
                          remote: Option<seq<nat>>) {
    && |writers| == |layout|
    && forall i :: 0 <= i < |layout| ==> writers[i] == Cover(deposits, remote, i)
  }

  /** A copy covers whole pieces and no slot twice. */
  ghost predicate Whole(layout: seq<Label>, indices: seq<nat>) {
    InRange(layout, indices) && Distinct(indices) && LabelClosed(layout, indices)
  }

  ghost predicate AllWhole(layout: seq<Label>, deposits: map<nat, seq<nat>>, remote: Option<seq<nat>>) {
    && (forall c :: c in deposits ==> Whole(layout, deposits[c]))
    && (remote.Some? ==> Whole(layout, remote.value))
  }

  /** One successful copy wrote every slot that bears this label. */
  ghost predicate Landed(layout: seq<Label>, landed: set<seq<nat>>, piece: Label) {
    exists c :: c in landed && forall i :: 0 <= i < |layout| && layout[i] == piece ==> i in c
  }

  ghost predicate Backed(layout: seq<Label>, pending: set<Label>, landed: set<seq<nat>>) {
    forall piece :: piece in layout && piece !in pending ==> Landed(layout, landed, piece)
  }

  /** Slots that share a label always have the same number of writers. */
  lemma EqualWriters(layout: seq<Label>, writers: seq<nat>, deposits: map<nat, seq<nat>>, remote: Option<seq<nat>>,
                     i: nat, j: nat)
    requires Counted(layout, writers, deposits, remote) && AllWhole(layout, deposits, remote)
    requires i < |layout| && j < |layout| && layout[i] == layout[j]
    ensures writers[i] == writers[j]
  {
    forall c | c in deposits ensures i in deposits[c] <==> j in deposits[c] { assert Whole(layout, deposits[c]); }
    assert Covering(deposits, i) == Covering(deposits, j);
  }

  /** The indices among `indices` whose label is in `pieces`, in order. */
  function Within(layout: seq<Label>, indices: seq<nat>, pieces: set<Label>): (r: seq<nat>)
    requires InRange(layout, indices)
    ensures InRange(layout, r) && forall i :: i in r <==> i in indices && layout[i] in pieces
    ensures Distinct(indices) ==> Distinct(r)
  {
    if indices == [] then []
    else
      var rest := Within(layout, indices[1..], pieces);
      if layout[indices[0]] in pieces then [indices[0]] + rest else rest
  }

  /** The indices among `indices` that no copy writes yet. */
  function Unwritten(writers: seq<nat>, indices: seq<nat>): (r: seq<nat>)
    requires forall k :: 0 <= k < |indices| ==> indices[k] < |writers|
    ensures forall i :: i in r <==> i in indices && writers[i] == 0
    ensures Distinct(indices) ==> Distinct(r)
    ensures forall k :: 0 <= k < |r| ==> r[k] in indices
  {
    if indices == [] then []
    else
      var rest := Unwritten(writers, indices[1..]);
      if writers[indices[0]] == 0 then [indices[0]] + rest else rest
  }

  lemma ClosedWithin(layout: seq<Label>, requested: seq<Label>, indices: seq<nat>, pieces: set<Label>)
    requires Selects(layout, requested, indices)
    ensures Whole(layout, Within(layout, indices, pieces))
    ensures forall j :: 0 <= j < |layout| ==>
      (j in Within(layout, indices, pieces) <==> layout[j] in requested && layout[j] in pieces)
  {
    forall j | 0 <= j < |layout| ensures j in indices <==> layout[j] in requested {
      if j in indices {
        var k :| 0 <= k < |indices| && indices[k] == j;
        assert layout[j] == requested[k];
      }
    }
  }

  /** Dropping the slots that have writers keeps a selection closed. */
  lemma ClosedUnwritten(layout: seq<Label>, writers: seq<nat>, deposits: map<nat, seq<nat>>, remote: Option<seq<nat>>,
                        indices: seq<nat>)
    requires Counted(layout, writers, deposits, remote) && AllWhole(layout, deposits, remote)
    requires Whole(layout, indices)
    ensures Whole(layout, Unwritten(writers, indices))
  {
    var r := Unwritten(writers, indices);
    forall i, j | 0 <= i < |layout| && 0 <= j < |layout| && layout[i] == layout[j] && i in r ensures j in r {
      EqualWriters(layout, writers, deposits, remote, i, j);
    }
    forall k | 0 <= k < |r| ensures r[k] < |layout| { assert r[k] in indices; }
  }

  /** Count one more writer on each index. */
  method AddWriters(writers: seq<nat>, indices: seq<nat>) returns (r: seq<nat>)
    requires Distinct(indices) && forall k :: 0 <= k < |indices| ==> indices[k] < |writers|
    ensures |r| == |writers|
    ensures forall i :: 0 <= i < |r| ==> r[i] == writers[i] + if i in indices then 1 else 0
  {
    r := writers;
    for k := 0 to |indices|
      invariant |r| == |writers|
      invariant forall i :: 0 <= i < |r| ==> r[i] == writers[i] + if i in indices[..k] then 1 else 0
    {
      assert indices[k] !in indices[..k];
      r := r[indices[k] := r[indices[k]] + 1];
      assert indices[..k + 1] == indices[..k] + [indices[k]];
    }
    assert indices[..|indices|] == indices;
  }

  /** Count one writer less on each index; `None` is the lost-ownership error. */
  method DropWriters(writers: seq<nat>, indices: seq<nat>) returns (r: Option<seq<nat>>)
    requires Distinct(indices) && forall k :: 0 <= k < |indices| ==> indices[k] < |writers|
    ensures r.None? <==> exists k :: 0 <= k < |indices| && writers[indices[k]] == 0
    ensures r.Some? ==>
      && |r.value| == |writers|
      && forall i :: 0 <= i < |writers| ==> r.value[i] == writers[i] - if i in indices then 1 else 0
  {
    var left := writers;
    for k := 0 to |indices|
      invariant |left| == |writers|
      invariant forall l :: 0 <= l < k ==> writers[indices[l]] > 0
      invariant forall i :: 0 <= i < |left| ==> left[i] == writers[i] - if i in indices[..k] then 1 else 0
    {
      assert indices[k] !in indices[..k];
      if left[indices[k]] == 0 {
        return None;
      }
      left := left[indices[k] := left[indices[k]] - 1];
      assert indices[..k + 1] == indices[..k] + [indices[k]];
    }
    assert indices[..|indices|] == indices;
    r := Some(left);
  }

  /** A deposit copy joins: every slot it covers has one writer more. */
  lemma CoverAdd(deposits: map<nat, seq<nat>>, remote: Option<seq<nat>>, c: nat, indices: seq<nat>, i: nat)
    requires c !in deposits
    ensures Cover(deposits[c := indices], remote, i) == Cover(deposits, remote, i) + if i in indices then 1 else 0
  {
    var more := deposits[c := indices];
    if i in indices {
      assert Covering(more, i) == Covering(deposits, i) + {c};
    } else {
      assert Covering(more, i) == Covering(deposits, i);
    }
  }

  lemma CoverDrop(deposits: map<nat, seq<nat>>, remote: Option<seq<nat>>, c: nat, i: nat)
    requires c in deposits
    ensures Cover(deposits, remote, i) == Cover(deposits - {c}, remote, i) + if i in deposits[c] then 1 else 0
  {
    var fewer := deposits - {c};
    CoverAdd(fewer, remote, c, deposits[c], i);
    assert fewer[c := deposits[c]] == deposits;
  }

  lemma CoverNone(i: nat)
    ensures Cover(map[], None, i) == 0
  {
    assert Covering(map[], i) == {};
  }

  lemma CountedAdd(layout: seq<Label>, writers: seq<nat>, more: seq<nat>, deposits: map<nat, seq<nat>>,
                   remote: Option<seq<nat>>, c: nat, indices: seq<nat>)
    requires Counted(layout, writers, deposits, remote) && c !in deposits && |more| == |writers|
    requires forall i :: 0 <= i < |writers| ==> more[i] == writers[i] + if i in indices then 1 else 0
    ensures Counted(layout, more, deposits[c := indices], remote)
  {
    forall i | 0 <= i < |layout| ensures more[i] == Cover(deposits[c := indices], remote, i) {
      CoverAdd(deposits, remote, c, indices, i);
    }
  }

  lemma CountedDrop(layout: seq<Label>, writers: seq<nat>, fewer: seq<nat>, deposits: map<nat, seq<nat>>,
                    remote: Option<seq<nat>>, c: nat)
    requires Counted(layout, writers, deposits, remote) && c in deposits && |fewer| == |writers|
    requires forall i :: 0 <= i < |writers| ==> writers[i] == fewer[i] + if i in deposits[c] then 1 else 0
    ensures Counted(layout, fewer, deposits - {c}, remote)
  {
    forall i | 0 <= i < |layout| ensures fewer[i] == Cover(deposits - {c}, remote, i) {
      CoverDrop(deposits, remote, c, i);
    }
  }

  /** A copy that lands takes its labels out of `pending`; nothing else becomes readable. */
  lemma LandKeeps(layout: seq<Label>, pending: set<Label>, landed: set<seq<nat>>, indices: seq<nat>)
    requires Backed(layout, pending, landed) && Whole(layout, indices)
    ensures Backed(layout, pending - Pieces(layout, indices), landed + {indices})
  {
    forall piece | piece in layout && piece !in pending - Pieces(layout, indices)
      ensures Landed(layout, landed + {indices}, piece)
    {
      if piece in Pieces(layout, indices) {
        assert indices in landed + {indices};
      } else {
        var c :| c in landed && forall i :: 0 <= i < |layout| && layout[i] == piece ==> i in c;
        assert c in landed + {indices};
      }
    }
  }

  /** The labels of some slots. */
  function Pieces(layout: seq<Label>, indices: seq<nat>): (r: set<Label>)
    requires InRange(layout, indices)
    ensures forall k :: 0 <= k < |indices| ==> layout[indices[k]] in r
  {
    set k | 0 <= k < |indices| :: layout[indices[k]]
  }

  /** A copy as long as the layout covers every label. */
  lemma FullCovers(layout: seq<Label>, indices: seq<nat>)
    requires InRange(layout, indices) && Distinct(indices) && |indices| == |layout|
    ensures forall i :: 0 <= i < |layout| ==> layout[i] in Pieces(layout, indices)
  {
    var used, all := Members(indices), Below(|layout|);
    DistinctSize(indices);
    assert used <= all;
    SubsetSize(used, all);
    forall i | 0 <= i < |layout| ensures layout[i] in Pieces(layout, indices) {
      assert i in used;
      var k :| 0 <= k < |indices| && indices[k] == i;
    }
  }

  ghost function Members(s: seq<nat>): set<nat> { set i | i in s }

  ghost function Below(n: nat): (r: set<nat>)
    ensures |r| == n && forall i :: i in r <==> 0 <= i < n
  {
    if n == 0 then {} else Below(n - 1) + {n - 1}
  }

  lemma {:induction false} DistinctSize(s: seq<nat>)
    requires Distinct(s)
    ensures |Members(s)| == |s|
  {
    if s != [] {
      DistinctSize(s[1..]);
      assert s == [s[0]] + s[1..];
      assert s[0] !in s[1..];
      assert Members(s) == {s[0]} + Members(s[1..]);
    } else {
      assert Members(s) == {};
    }
  }

  lemma SubsetSize(a: set<nat>, b: set<nat>)
    requires a <= b && |a| == |b|
    ensures a == b
  {
    assert b == a + (b - a);
    assert |b - a| == 0;
  }

  class Residency {
    const layout: seq<Label>
    var state: FillState
    var pending: set<Label>
    var writers: Option<seq<nat>>
    var pendingDeposits: nat
    var deposits: map<nat, seq<nat>>
    var remote: Option<seq<nat>>
    var remoteCancelled: bool
    /** The copies that have succeeded. */
    ghost var landed: set<seq<nat>>

    ghost predicate Valid()
      reads this
    {
      && pending <= (set piece | piece in layout)
      && (state == Ready <==> pending != (set piece | piece in layout))
      && (pending != {} ==> writers.Some?)
      && (writers.Some? ==> Counted(layout, writers.value, deposits, remote))
      && (writers.None? ==> deposits == map[] && remote.None?)
      && AllWhole(layout, deposits, remote)
      && pendingDeposits == |deposits|
      && Backed(layout, pending, landed)
    }

    constructor (layout: seq<Label>)
      ensures Valid() && this.layout == layout && state == Filling && landed == {}
      ensures deposits == map[] && remote == None && pending == set piece | piece in layout
    {
      this.layout := layout;
      state, pending := Filling, set piece | piece in layout;
      writers := if layout == [] then None else Some(seq(|layout|, _ => 0));
      pendingDeposits, deposits, remote, remoteCancelled, landed := 0, map[], None, false, {};
      new;
      forall i | 0 <= i < |layout| ensures Cover(deposits, remote, i) == 0 { CoverNone(i); }
    }

    /** Start copying the requested pieces that are still missing. Nothing is copied when they
        are all readable, or when every missing one already has a writer. `fits` says that the
        residency is not about to retire and was declared with the deposit's layout. */
    method Deposit(copy: nat, requested: seq<Label>, fits: bool) returns (start: Start)
      requires Valid() && copy !in deposits
      modifies this`writers, this`deposits, this`pendingDeposits
      ensures Valid()
      ensures DepositMeans(start, layout, state, pending, old(deposits), remote, landed, fits, requested)
      ensures start.Started? ==> deposits == old(deposits)[copy := start.indices]
      ensures !start.Started? ==> deposits == old(deposits) && writers == old(writers)
    {
      start := DepositChoice(layout, state, pending, writers, fits, requested);
      DepositChooses(layout, state, pending, writers, deposits, remote, landed, fits, requested);
      if start.Started? {
        AddDeposit(copy, start.indices);
      }
    }

    /** A deposit copy of whole pieces joins. */
    method AddDeposit(copy: nat, indices: seq<nat>)
      requires Valid() && copy !in deposits && writers.Some? && Whole(layout, indices)
      modifies this`writers, this`deposits, this`pendingDeposits
      ensures Valid() && deposits == old(deposits)[copy := indices]
    {
      var more := AddWriters(writers.value, indices);
      CountedAdd(layout, writers.value, more, deposits, remote, copy, indices);
      writers := Some(more);
      deposits := deposits[copy := indices];
      pendingDeposits := pendingDeposits + 1;
    }

    /** Ask for pieces to read; with a source at hand, the missing ones that nothing writes yet
        are given to the one remote fill a residency may have. */
    method Fetch(requested: seq<Label>, fits: bool, source: bool) returns (start: Start)
      requires Valid()
      modifies this`writers, this`remote
      ensures Valid()
      ensures FetchMeans(start, layout, state, pending, deposits, old(remote), landed, fits, source, requested)
      ensures remote == if start.Started? then Some(start.indices) else old(remote)
      ensures !start.Started? ==> writers == old(writers)
    {
      start := FetchChoice(layout, state, pending, writers, remote, fits, source, requested);
      FetchChooses(layout, state, pending, writers, deposits, remote, landed, fits, source, requested);
      if start.Started? {
        AddRemote(start.indices);
      }
    }

    /** The remote fill starts on whole pieces. */
    method AddRemote(indices: seq<nat>)
      requires Valid() && remote.None? && writers.Some? && Whole(layout, indices)
      modifies this`writers, this`remote
      ensures Valid() && remote == Some(indices)
    {
      var more := AddWriters(writers.value, indices);
      CountedRemote(layout, writers.value, more, deposits, indices);
      writers := Some(more);
      remote := Some(indices);
    }

    /** A copy that counts as a success makes its labels readable. */
    method Land(indices: seq<nat>)
      requires Valid() && Whole(layout, indices) && state != Discarding
      modifies this`pending, this`state, this`landed
      ensures Valid() && pending == old(pending) - Pieces(layout, indices)
      ensures state == if pending != old(pending) then Ready else old(state)
      ensures landed == old(landed) + {indices}
    {
      LandKeeps(layout, pending, landed, indices);
      ghost var less := pending - Pieces(layout, indices);
      var left := pending;
      if |indices| == |layout| {
        FullCovers(layout, indices);
        left := {};
        assert less == {};
      } else {
        left := pending - Pieces(layout, indices);
      }
      if left != pending {
        state := Ready;
      }
      pending := left;
      landed := landed + {indices};
    }

    /** The writer counts go once nothing is pending or in flight. */
    method Settle()
      requires Valid()
      modifies this`writers
      ensures Valid()
      ensures writers == if pending == {} && deposits == map[] && remote.None? then None else old(writers)
    {
      if pending == {} && pendingDeposits == 0 && remote.None? {
        writers := None;
      }
    }

    /** A deposit copy is over. Its writer counts are always there to give back. */
    method FinishDeposit(copy: nat, success: bool)
      requires Valid() && copy in deposits
      modifies this`pending, this`state, this`writers, this`landed, this`deposits, this`pendingDeposits
      ensures Valid() && deposits == old(deposits) - {copy}
      ensures landed == if success && old(state) != Discarding then old(landed) + {old(deposits[copy])} else old(landed)
      ensures var written := if success && old(state) != Discarding then Pieces(layout, old(deposits[copy])) else {};
        pending == old(pending) - written
      ensures state == if pending != old(pending) then Ready else old(state)
    {
      var indices := deposits[copy];
      var fewer := DropWriters(writers.value, indices);
      assert fewer.Some? by {
        forall k | 0 <= k < |indices| ensures writers.value[indices[k]] > 0 {
          CoverDrop(deposits, remote, copy, indices[k]);
        }
      }
      CountedDrop(layout, writers.value, fewer.value, deposits, remote, copy);
      writers := Some(fewer.value);
      deposits := deposits - {copy};
      pendingDeposits := pendingDeposits - 1;
      if success && state != Discarding {
        Land(indices);
      }
      Settle();
    }

    /** The remote fill is over; a fill that was cancelled meanwhile does not count. */
    method FinishRemote(success: bool)
      requires Valid() && remote.Some?
      modifies this`pending, this`state, this`writers, this`landed, this`remote, this`remoteCancelled
      ensures Valid() && remote == None && !remoteCancelled
      ensures var counts := success && old(state) != Discarding && !old(remoteCancelled);
        && landed == (if counts then old(landed) + {old(remote.value)} else old(landed))
        && pending == (if counts then old(pending) - Pieces(layout, old(remote.value)) else old(pending))
        && state == (if pending != old(pending) then Ready else old(state))
    {
      var indices := remote.value;
      var fewer := DropWriters(writers.value, indices);
      assert fewer.Some? by {
        forall k | 0 <= k < |indices| ensures writers.value[indices[k]] > 0 {
          assert indices[k] in indices;
        }
      }
      CountedLocal(layout, writers.value, fewer.value, deposits, indices);
      var counts := success && state != Discarding && !remoteCancelled;
      writers := Some(fewer.value);
      remote, remoteCancelled := None, false;
      if counts {
        Land(indices);
      }
      Settle();
    }

    /** Give up a fill; false is the lost-state error. Committed pieces stay readable. */
    method Discard() returns (ok: bool)
      requires Valid()
      modifies this`state, this`remoteCancelled
      ensures Valid()
      ensures ok <==> remote.Some? || old(state) != Ready
      ensures var gone := old(state) != Ready && (remote.None? || (old(state) == Filling && deposits == map[]));
        state == if gone then Discarding else old(state)
      ensures remoteCancelled == (old(remoteCancelled) || remote.Some?)
    {
      ok := remote.Some? || state != Ready;
      if ok {
        if remote.None? || (state == Filling && pendingDeposits == 0) {
          state := Discarding;
        }
        if remote.Some? {
          remoteCancelled := true;
        }
      }
    }

    /** Slots are handed to a reader only if one successful copy each wrote all slots of every
        requested label, and in the order they were asked for. */
    method ReadyIndices(requested: seq<Label>) returns (found: Option<seq<nat>>)
      requires Valid()
      ensures found.Some? <==> Selectable(layout, requested) && AllReadable(pending, requested)
      ensures found.Some? ==>
        Selects(layout, requested, found.value) && forall piece :: piece in requested ==> Landed(layout, landed, piece)
    {
      SelectableIff(layout, requested);
      if !AllReadable(pending, requested) {
        return None;
      }
      found := LayoutIndices(layout, requested);
      IndicesSelect(layout, requested);
      if found.Some? {
        NoneWithin(layout, requested, found.value, pending);
        ReadableLanded(layout, pending, landed, requested, found.value);
      }
    }
  }

  lemma NoneWithin(layout: seq<Label>, requested: seq<Label>, indices: seq<nat>, pieces: set<Label>)
    requires Selects(layout, requested, indices) && forall piece :: piece in requested ==> piece !in pieces
    ensures Within(layout, indices, pieces) == []
  {
    var r := Within(layout, indices, pieces);
    assert r == [] || r[0] in r;
    ClosedWithin(layout, requested, indices, pieces);
  }

  lemma CountedRemote(layout: seq<Label>, writers: seq<nat>, more: seq<nat>, deposits: map<nat, seq<nat>>,
                      indices: seq<nat>)
    requires Counted(layout, writers, deposits, None) && |more| == |writers|
    requires forall i :: 0 <= i < |writers| ==> more[i] == writers[i] + if i in indices then 1 else 0
    ensures Counted(layout, more, deposits, Some(indices))
  {
  }

  lemma CountedLocal(layout: seq<Label>, writers: seq<nat>, fewer: seq<nat>, deposits: map<nat, seq<nat>>,
                     indices: seq<nat>)
    requires Counted(layout, writers, deposits, Some(indices)) && |fewer| == |writers|
    requires forall i :: 0 <= i < |writers| ==> writers[i] == fewer[i] + if i in indices then 1 else 0
    ensures Counted(layout, fewer, deposits, None)
  {
  }

  /** A requested slot is missing and no copy writes it. */
  ghost predicate IsMissing(layout: seq<Label>, pending: set<Label>, deposits: map<nat, seq<nat>>,
                            remote: Option<seq<nat>>, requested: seq<Label>, i: nat) {
    i < |layout| && layout[i] in requested && layout[i] in pending && Cover(deposits, remote, i) == 0
  }

  ghost predicate AnyMissing(layout: seq<Label>, pending: set<Label>, deposits: map<nat, seq<nat>>,
                             remote: Option<seq<nat>>, requested: seq<Label>) {
    exists i: nat :: IsMissing(layout, pending, deposits, remote, requested, i)
  }

  predicate AllReadable(pending: set<Label>, requested: seq<Label>) {
    forall piece :: piece in requested ==> piece !in pending
  }

  /** What is found present is the selection, and has been written piece by piece. */
  ghost predicate IsRead(start: Start, layout: seq<Label>, landed: set<seq<nat>>, requested: seq<Label>) {
    start.Present? ==>
      Selects(layout, requested, start.indices) && forall piece :: piece in requested ==> Landed(layout, landed, piece)
  }

  /** The sizing-up that precedes a fetch. */
  function FetchChoice(layout: seq<Label>, state: FillState, pending: set<Label>, writers: Option<seq<nat>>,
                       remote: Option<seq<nat>>, fits: bool, source: bool, requested: seq<Label>): Start
    requires writers.Some? ==> |writers.value| == |layout|
    requires pending != {} ==> writers.Some?
  {
    if state == Discarding then if source then Waiting else Refused
    else if !fits then Refused
    else
      match LayoutIndices(layout, requested)
      case None => Refused
      case Some(indices) =>
        if AllReadable(pending, requested) then Present(indices)
        else if !source || remote.Some? then Waiting
        else
          IndicesSelect(layout, requested);
          var missing := Unwritten(writers.value, Within(layout, indices, pending));
          if missing == [] then Waiting else Started(missing)
  }

  /** A fetch is refused if the request cannot be served from this residency, or if that is being discarded
      and there is no source. It finds its pieces present exactly if all of them are
      readable. It starts a remote fill exactly if there is a source, no remote fill runs and a
      requested slot is missing, and the fill then takes all such slots. Otherwise it waits. */
  ghost predicate FetchMeans(start: Start, layout: seq<Label>, state: FillState, pending: set<Label>,
                             deposits: map<nat, seq<nat>>, remote: Option<seq<nat>>, landed: set<seq<nat>>,
                             fits: bool, source: bool, requested: seq<Label>) {
    var served := state != Discarding && fits && Selectable(layout, requested);
    && (start.Refused? <==> if state == Discarding then !source else !served)
    && (start.Present? <==> served && AllReadable(pending, requested))
    && (start.Started? <==>
        served && source && remote.None? && AnyMissing(layout, pending, deposits, remote, requested))
    && IsRead(start, layout, landed, requested)
    && (start.Started? ==>
        && Whole(layout, start.indices)
        && forall i: nat :: i in start.indices <==> IsMissing(layout, pending, deposits, remote, requested, i))
  }

  lemma FetchChooses(layout: seq<Label>, state: FillState, pending: set<Label>, writers: Option<seq<nat>>,
                     deposits: map<nat, seq<nat>>, remote: Option<seq<nat>>, landed: set<seq<nat>>, fits: bool,
                     source: bool, requested: seq<Label>)
    requires writers.Some? ==> Counted(layout, writers.value, deposits, remote)
    requires pending != {} ==> writers.Some?
    requires Backed(layout, pending, landed) && AllWhole(layout, deposits, remote)
    ensures var start := FetchChoice(layout, state, pending, writers, remote, fits, source, requested);
      && FetchMeans(start, layout, state, pending, deposits, remote, landed, fits, source, requested)
      && (start.Started? ==> writers.Some?)
  {
    var found := LayoutIndices(layout, requested);
    SelectableIff(layout, requested);
    if found.Some? {
      IndicesSelect(layout, requested);
      ClosedWithin(layout, requested, found.value, pending);
      if AllReadable(pending, requested) {
        NoneWithin(layout, requested, found.value, pending);
        ReadableLanded(layout, pending, landed, requested, found.value);
      } else {
        var within := Within(layout, found.value, pending);
        ClosedUnwritten(layout, writers.value, deposits, remote, within);
        UnwrittenIsMissing(layout, pending, writers.value, deposits, remote, requested, within);
      }
    }
  }

  lemma UnwrittenIsMissing(layout: seq<Label>, pending: set<Label>, writers: seq<nat>, deposits: map<nat, seq<nat>>,
                           remote: Option<seq<nat>>, requested: seq<Label>, within: seq<nat>)
    requires Counted(layout, writers, deposits, remote) && InRange(layout, within)
    requires forall i :: 0 <= i < |layout| ==> (i in within <==> layout[i] in requested && layout[i] in pending)
    ensures forall i: nat ::
      i in Unwritten(writers, within) <==> IsMissing(layout, pending, deposits, remote, requested, i)
    ensures Unwritten(writers, within) != [] <==> AnyMissing(layout, pending, deposits, remote, requested)
  {
    var r := Unwritten(writers, within);
    forall i: nat ensures i in r <==> IsMissing(layout, pending, deposits, remote, requested, i) {
      if i in within {
        var k :| 0 <= k < |within| && within[k] == i;
      }
    }
    assert r != [] ==> r[0] in r;
  }

  /** The sizing-up that precedes a deposit. */
  function DepositChoice(layout: seq<Label>, state: FillState, pending: set<Label>, writers: Option<seq<nat>>,
                         fits: bool, requested: seq<Label>): Start
    requires writers.Some? ==> |writers.value| == |layout|
    requires pending != {} ==> writers.Some?
  {
    if state == Discarding || !fits then Refused
    else
      match LayoutIndices(layout, requested)
      case None => Refused
      case Some(indices) =>
        IndicesSelect(layout, requested);
        var selected := Within(layout, indices, pending);
        if selected == [] then Present(indices)
        else
          assert selected[0] in selected;
          if Unwritten(writers.value, selected) == [] then Waiting else Started(selected)
  }

  /** A deposit is refused exactly if the request cannot be served from this residency, or that is being
      discarded. It finds its pieces present exactly if all of them are readable. It starts
      copying exactly if a requested slot is missing, and then copies every requested slot that
      is not readable yet, written by others or not. Otherwise it waits. */
  ghost predicate DepositMeans(start: Start, layout: seq<Label>, state: FillState, pending: set<Label>,
                               deposits: map<nat, seq<nat>>, remote: Option<seq<nat>>, landed: set<seq<nat>>,
                               fits: bool, requested: seq<Label>) {
    var served := state != Discarding && fits && Selectable(layout, requested);
    && (start.Refused? <==> !served)
    && (start.Present? <==> served && AllReadable(pending, requested))
    && (start.Started? <==> served && AnyMissing(layout, pending, deposits, remote, requested))
    && IsRead(start, layout, landed, requested)
    && (start.Started? ==>
        && Whole(layout, start.indices)
        && forall i :: 0 <= i < |layout| ==> (i in start.indices <==> layout[i] in requested && layout[i] in pending))
  }

  lemma DepositChooses(layout: seq<Label>, state: FillState, pending: set<Label>, writers: Option<seq<nat>>,
                       deposits: map<nat, seq<nat>>, remote: Option<seq<nat>>, landed: set<seq<nat>>, fits: bool,
                       requested: seq<Label>)
    requires writers.Some? ==> Counted(layout, writers.value, deposits, remote)
    requires pending != {} ==> writers.Some?
    requires Backed(layout, pending, landed)
    ensures var start := DepositChoice(layout, state, pending, writers, fits, requested);
      && DepositMeans(start, layout, state, pending, deposits, remote, landed, fits, requested)
      && (start.Started? ==> writers.Some?)
  {
    var found := LayoutIndices(layout, requested);
    SelectableIff(layout, requested);
    if found.Some? {
      IndicesSelect(layout, requested);
      ClosedWithin(layout, requested, found.value, pending);
      var selected := Within(layout, found.value, pending);
      if selected == [] {
        ReadableLanded(layout, pending, landed, requested, found.value);
        NothingWithin(layout, requested, found.value, pending);
      } else {
        assert selected[0] in selected;
        UnwrittenIsMissing(layout, pending, writers.value, deposits, remote, requested, selected);
      }
    }
  }

  lemma NothingWithin(layout: seq<Label>, requested: seq<Label>, indices: seq<nat>, pending: set<Label>)
    requires Selects(layout, requested, indices) && Within(layout, indices, pending) == []
    ensures AllReadable(pending, requested)
  {
    forall piece | piece in requested ensures piece !in pending {
      var k :| 0 <= k < |requested| && requested[k] == piece;
      assert layout[indices[k]] == piece && indices[k] in indices;
      assert indices[k] !in Within(layout, indices, pending);
    }
  }

  /** Requested pieces with nothing missing have all been written. */
  lemma ReadableLanded(layout: seq<Label>, pending: set<Label>, landed: set<seq<nat>>, requested: seq<Label>,
                       indices: seq<nat>)
    requires Backed(layout, pending, landed) && Selects(layout, requested, indices)
    requires Within(layout, indices, pending) == []
    ensures forall piece :: piece in requested ==> Landed(layout, landed, piece)
  {
    forall piece | piece in requested ensures Landed(layout, landed, piece) {
      var k :| 0 <= k < |requested| && requested[k] == piece;
      assert layout[indices[k]] == piece && indices[k] in indices;
      assert indices[k] !in Within(layout, indices, pending);
    }
  }
}
