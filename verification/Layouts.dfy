/**
 Matching requested piece labels against a residency's layout. A layout may repeat a label
 (several slots of one pool); a piece is then all slots bearing that label, in layout order.
 */
module Layouts {
  import opened Prelude

  type Label = string

  predicate Distinct<T(==)>(s: seq<T>) { forall i, j :: 0 <= i < j < |s| ==> s[i] != s[j] }

  predicate Increasing(s: seq<nat>) { forall i, j :: 0 <= i < j < |s| ==> s[i] < s[j] }

  predicate InRange(layout: seq<Label>, indices: seq<nat>) { forall k :: 0 <= k < |indices| ==> indices[k] < |layout| }

  /** Whoever selects one slot of a label selects them all. */
  ghost predicate LabelClosed(layout: seq<Label>, indices: seq<nat>) {
    forall i, j {:trigger layout[i], layout[j]} ::
      0 <= i < |layout| && 0 <= j < |layout| && layout[i] == layout[j] && i in indices ==> j in indices
  }

  /** `indices` names, for each requested piece in turn, one slot bearing it; no slot twice;
      no slot of a requested label left out. Repeated labels keep the layout's order. */
  ghost predicate Selects(layout: seq<Label>, requested: seq<Label>, indices: seq<nat>) {
    && |indices| == |requested|
    && InRange(layout, indices)
    && (forall k :: 0 <= k < |indices| ==> layout[indices[k]] == requested[k])
    && Distinct(indices)
    && (forall j :: 0 <= j < |layout| && layout[j] in requested ==> j in indices)
    && (Distinct(requested) || Increasing(indices))
  }

  function Range(n: nat): (r: seq<nat>)
    ensures |r| == n && forall i :: 0 <= i < n ==> r[i] == i
  {
    seq(n, i => i)
  }

  /** The positions from `from` on whose label is among `labels`. */
  function Positions(layout: seq<Label>, labels: set<Label>, from: nat): (r: seq<nat>)
    requires from <= |layout|
    ensures forall i :: i in r <==> from <= i < |layout| && layout[i] in labels
    ensures Increasing(r) && InRange(layout, r)
    decreases |layout| - from
  {
    if from == |layout| then []
    else
      var rest := Positions(layout, labels, from + 1);
      assert forall k :: 0 <= k < |rest| ==> rest[k] in rest;
      if layout[from] in labels then [from] + rest else rest
  }

  function LabelsAt(layout: seq<Label>, indices: seq<nat>): (r: seq<Label>)
    requires InRange(layout, indices)
    ensures |r| == |indices| && forall k :: 0 <= k < |r| ==> r[k] == layout[indices[k]]
  {
    seq(|indices|, k requires 0 <= k < |indices| => layout[indices[k]])
  }

  /** The label index a residency caches: a label's only position, or `None` if it repeats. */
  function LabelIndex(layout: seq<Label>): map<Label, Option<nat>> {
    map piece | piece in layout :: OnlyPosition(layout, piece)
  }

  function OnlyPosition(layout: seq<Label>, piece: Label): (r: Option<nat>)
    ensures r.Some? ==>
      && r.value < |layout| && layout[r.value] == piece
      && forall j :: 0 <= j < |layout| && layout[j] == piece ==> j == r.value
    ensures r.None? ==> piece !in layout || exists i, j :: 0 <= i < j < |layout| && layout[i] == layout[j] == piece
  {
    var positions := Positions(layout, {piece}, 0);
    if |positions| == 1 then assert positions[0] in positions; Some(positions[0])
    else
      assert |positions| > 1 ==> positions[0] in positions && positions[1] in positions;
      assert |positions| == 0 ==> piece !in layout by {
        if piece in layout {
          var i :| 0 <= i < |layout| && layout[i] == piece;
          assert i in positions;
        }
      }
      None
  }

  /** Look each label up on its own; one that is missing or repeated refuses the request. */
  function LookUp(layout: seq<Label>, requested: seq<Label>): (r: Option<seq<nat>>)
    ensures r.Some? <==> forall piece :: piece in requested ==> OnlyPosition(layout, piece).Some?
    ensures r.Some? ==>
      && |r.value| == |requested|
      && forall k :: 0 <= k < |requested| ==> OnlyPosition(layout, requested[k]) == Some(r.value[k])
  {
    if requested == [] then Some([])
    else
      match (OnlyPosition(layout, requested[0]), LookUp(layout, requested[1..]))
      case (Some(i), Some(rest)) => Some([i] + rest)
      case _ => None
  }

  function LayoutIndices(layout: seq<Label>, requested: seq<Label>): Option<seq<nat>> {
    if layout == requested then Some(Range(|layout|))
    else if requested == [] then None
    else if !Distinct(requested) then
      var indices := Positions(layout, set piece | piece in requested, 0);
      if LabelsAt(layout, indices) == requested then Some(indices) else None
    else LookUp(layout, requested)
  }

  /** What comes back selects exactly the requested pieces. */
  lemma IndicesSelect(layout: seq<Label>, requested: seq<Label>)
    ensures LayoutIndices(layout, requested).Some? ==>
      Selects(layout, requested, LayoutIndices(layout, requested).value)
  {
    if layout != requested && requested != [] && Distinct(requested) && LookUp(layout, requested).Some? {
      var r := LookUp(layout, requested).value;
      forall k, l | 0 <= k < l < |r| ensures r[k] != r[l] {
        assert layout[r[k]] == requested[k] != requested[l] == layout[r[l]];
      }
      forall j | 0 <= j < |layout| && layout[j] in requested ensures j in r {
        var k :| 0 <= k < |requested| && requested[k] == layout[j];
        assert r[k] == j;
      }
    }
  }

  lemma {:induction false} IncreasingUnique(a: seq<nat>, b: seq<nat>)
    requires Increasing(a) && Increasing(b) && forall i :: i in a <==> i in b
    ensures a == b
  {
    assert a != [] ==> a[0] in b;
    assert b != [] ==> b[0] in a;
    if a != [] {
      assert a[0] in b && b[0] in a;
      var k :| 0 <= k < |b| && b[k] == a[0];
      var l :| 0 <= l < |a| && a[l] == b[0];
      assert a[0] == b[0];
      forall i ensures i in a[1..] <==> i in b[1..] {
        assert i in a[1..] ==> i in a && i != a[0];
        assert i in b[1..] ==> i in b && i != b[0];
      }
      IncreasingUnique(a[1..], b[1..]);
      assert a == [a[0]] + a[1..] && b == [b[0]] + b[1..];
    }
  }

  lemma OrderedComplete(layout: seq<Label>, requested: seq<Label>, indices: seq<nat>)
    requires Selects(layout, requested, indices) && Increasing(indices)
    ensures indices == Positions(layout, set piece | piece in requested, 0)
    ensures LabelsAt(layout, indices) == requested
  {
    var found := Positions(layout, set piece | piece in requested, 0);
    forall i ensures i in indices <==> i in found {
      if i in indices {
        var k :| 0 <= k < |indices| && indices[k] == i;
        assert layout[i] == requested[k];
      }
    }
    IncreasingUnique(indices, found);
  }

  lemma LookUpComplete(layout: seq<Label>, requested: seq<Label>, indices: seq<nat>)
    requires Selects(layout, requested, indices) && Distinct(requested)
    ensures LookUp(layout, requested) == Some(indices)
  {
    forall k | 0 <= k < |requested| ensures OnlyPosition(layout, requested[k]) == Some(indices[k]) {
      OnlyOne(layout, requested, indices, k);
    }
    assert forall piece :: piece in requested ==> OnlyPosition(layout, piece).Some?;
    assert LookUp(layout, requested).value == indices;
  }

  lemma OnlyOne(layout: seq<Label>, requested: seq<Label>, indices: seq<nat>, k: nat)
    requires Selects(layout, requested, indices) && Distinct(requested) && k < |requested|
    ensures OnlyPosition(layout, requested[k]) == Some(indices[k])
  {
    forall j | 0 <= j < |layout| && layout[j] == requested[k] ensures j == indices[k] {
      assert j in indices;
      var l :| 0 <= l < |indices| && indices[l] == j;
      assert requested[l] == requested[k];
    }
    assert layout[indices[k]] == requested[k];
  }

  /** A selection that exists is found, and apart from the whole layout it is the only one: a
      request is refused exactly when no selection exists, or nothing was asked of a
      non-empty layout. */
  lemma IndicesComplete(layout: seq<Label>, requested: seq<Label>, indices: seq<nat>)
    requires Selects(layout, requested, indices) && (requested != [] || layout == [])
    ensures LayoutIndices(layout, requested).Some?
    ensures layout != requested ==> LayoutIndices(layout, requested) == Some(indices)
  {
    if layout != requested && requested != [] {
      if Distinct(requested) {
        LookUpComplete(layout, requested, indices);
      } else {
        OrderedComplete(layout, requested, indices);
      }
    }
  }

  /** Some selection of the layout has exactly the requested pieces. Nothing can be asked of
      nothing only. */
  ghost predicate Selectable(layout: seq<Label>, requested: seq<Label>) {
    (requested != [] || layout == []) && exists indices :: Selects(layout, requested, indices)
  }

  lemma SelectableIff(layout: seq<Label>, requested: seq<Label>)
    ensures LayoutIndices(layout, requested).Some? <==> Selectable(layout, requested)
  {
    IndicesSelect(layout, requested);
    if Selectable(layout, requested) {
      var indices :| Selects(layout, requested, indices);
      IndicesComplete(layout, requested, indices);
    }
  }

  /** Building the cached index in one pass over the layout. */
  method PrepareLabelIndex(layout: seq<Label>) returns (index: map<Label, Option<nat>>)
    ensures index == LabelIndex(layout)
  {
    index := map[];
    for i := 0 to |layout|
      invariant index == LabelIndex(layout[..i])
    {
      IndexOneMore(layout[..i], layout[i]);
      assert layout[..i] + [layout[i]] == layout[..i + 1];
      index := index[layout[i] := if layout[i] in index then None else Some(i)];
    }
    assert layout[..|layout|] == layout;
  }

  lemma OnlyOnce(layout: seq<Label>, piece: Label, i: nat)
    requires i < |layout| && layout[i] == piece && forall j :: 0 <= j < |layout| && layout[j] == piece ==> j == i
    ensures OnlyPosition(layout, piece) == Some(i)
  {
  }

  lemma Repeated(layout: seq<Label>, piece: Label, i: nat, j: nat)
    requires i < j < |layout| && layout[i] == layout[j] == piece
    ensures OnlyPosition(layout, piece) == None
  {
  }

  lemma OneMore(layout: seq<Label>, piece: Label, other: Label)
    ensures OnlyPosition(layout + [piece], other)
      == if other != piece then OnlyPosition(layout, other) else if piece in layout then None else Some(|layout|)
  {
    var longer := layout + [piece];
    if other == piece {
      if piece in layout {
        var i :| 0 <= i < |layout| && layout[i] == piece;
        Repeated(longer, piece, i, |layout|);
      } else {
        OnlyOnce(longer, piece, |layout|);
      }
    } else if OnlyPosition(layout, other).Some? {
      OnlyOnce(longer, other, OnlyPosition(layout, other).value);
    } else if other in layout {
      var i, j :| 0 <= i < j < |layout| && layout[i] == layout[j] == other;
      Repeated(longer, other, i, j);
    } else {
      assert other !in longer;
    }
  }

  lemma IndexOneMore(layout: seq<Label>, piece: Label)
    ensures LabelIndex(layout + [piece])
      == LabelIndex(layout)[piece := if piece in layout then None else Some(|layout|)]
  {
    var longer := layout + [piece];
    forall other | other in longer ensures OnlyPosition(longer, other)
        == if other != piece then OnlyPosition(layout, other) else if piece in layout then None else Some(|layout|)
    {
      OneMore(layout, piece, other);
    }
    assert forall other :: other in longer <==> other in layout || other == piece;
  }

  /** The lookup that uses a cached index instead of counting in the layout. */
  function CachedIndices(layout: seq<Label>, requested: seq<Label>, index: map<Label, Option<nat>>): Option<seq<nat>> {
    if layout == requested then Some(Range(|layout|))
    else if requested == [] then None
    else if !Distinct(requested) then
      var indices := Positions(layout, set piece | piece in requested, 0);
      if LabelsAt(layout, indices) == requested then Some(indices) else None
    else CachedLookUp(requested, index)
  }

  function CachedLookUp(requested: seq<Label>, index: map<Label, Option<nat>>): Option<seq<nat>> {
    if requested == [] then Some([])
    else if requested[0] !in index then None
    else
      match (index[requested[0]], CachedLookUp(requested[1..], index))
      case (Some(i), Some(rest)) => Some([i] + rest)
      case _ => None
  }

  lemma {:induction false} CachedLookUpAgrees(layout: seq<Label>, requested: seq<Label>)
    ensures CachedLookUp(requested, LabelIndex(layout)) == LookUp(layout, requested)
  {
    if requested != [] {
      CachedLookUpAgrees(layout, requested[1..]);
      assert requested[0] in layout || OnlyPosition(layout, requested[0]).None?;
    }
  }

  /** Both lookups always answer alike. */
  lemma CachedAgrees(layout: seq<Label>, requested: seq<Label>)
    ensures CachedIndices(layout, requested, LabelIndex(layout)) == LayoutIndices(layout, requested)
  {
    CachedLookUpAgrees(layout, requested);
  }
}
