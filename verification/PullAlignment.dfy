/**
 Which source bytes a remote write puts where. The target names keys and, for each, labelled
 destinations; the source selects what it has, flattens both sides into one native transfer, and
 reports the positions of the keys it wrote.
 */
module PullAlignment {
  import opened Prelude
  import opened Layouts

  datatype SourceRef = SourceRef(key: BlockKey, piece: Label, slot: nat)
  datatype TargetRef = TargetRef(piece: Label, place: nat)

  /** A readable residency: its declared layout and a reference for each slot. */
  datatype Source = Source(keyLayout: seq<Label>, refs: seq<SourceRef>)

  function LayoutOf(refs: seq<SourceRef>): (r: seq<Label>)
    ensures |r| == |refs| && forall i :: 0 <= i < |r| ==> r[i] == refs[i].piece
  {
    seq(|refs|, i requires 0 <= i < |refs| => refs[i].piece)
  }

  function LabelsOf(refs: seq<TargetRef>): (r: seq<Label>)
    ensures |r| == |refs| && forall i :: 0 <= i < |r| ==> r[i] == refs[i].piece
  {
    seq(|refs|, i requires 0 <= i < |refs| => refs[i].piece)
  }

  datatype ReadClaim = ReadClaim(index: nat, refs: seq<SourceRef>)

  datatype Readers = Unprepared | Acquired(claims: seq<ReadClaim>)

  /** The source's references are its own, for the key it is listed under. */
  ghost predicate Faithful(index: map<BlockKey, Option<Source>>) {
    forall k :: k in index && index[k].Some? ==>
      forall i :: 0 <= i < |index[k].value.refs| ==> index[k].value.refs[i].key == k
  }

  /** References for exactly the destination's labels, in its order, all from one key. */
  ghost predicate Aligned(key: BlockKey, refs: seq<SourceRef>, destination: seq<TargetRef>) {
    && |refs| == |destination|
    && forall i :: 0 <= i < |refs| ==> refs[i].key == key && refs[i].piece == destination[i].piece
  }

  /** What `acquire_readers` selects for one key, if anything. */
  function SelectRefs(source: Source, destination: seq<TargetRef>, keyLayout: seq<Label>): Option<seq<SourceRef>> {
    if keyLayout != [] && keyLayout != source.keyLayout then None
    else if LayoutOf(source.refs) == LabelsOf(destination) then Some(source.refs)
    else
      match LayoutIndices(LayoutOf(source.refs), LabelsOf(destination))
      case None => None
      case Some(indices) =>
        IndicesSelect(LayoutOf(source.refs), LabelsOf(destination));
        Some(seq(|indices|, i requires 0 <= i < |indices| => source.refs[indices[i]]))
  }

  lemma SelectedAligned(key: BlockKey, source: Source, destination: seq<TargetRef>, keyLayout: seq<Label>)
    requires forall i :: 0 <= i < |source.refs| ==> source.refs[i].key == key
    requires SelectRefs(source, destination, keyLayout).Some?
    ensures Aligned(key, SelectRefs(source, destination, keyLayout).value, destination)
  {
    var layout, requested := LayoutOf(source.refs), LabelsOf(destination);
    if layout == requested {
      forall i | 0 <= i < |destination| ensures source.refs[i].piece == destination[i].piece {
        assert layout[i] == requested[i];
      }
    } else {
      IndicesSelect(layout, requested);
      var indices := LayoutIndices(layout, requested).value;
      forall i | 0 <= i < |destination| ensures source.refs[indices[i]].piece == destination[i].piece {
        assert layout[indices[i]] == requested[i];
      }
    }
  }

  /** The references are a selection of the source's slots: for a label that repeats, all of its slots, in
      the source's order. */
  ghost predicate IsSelection(source: Source, destination: seq<TargetRef>, refs: seq<SourceRef>) {
    exists indices :: Selects(LayoutOf(source.refs), LabelsOf(destination), indices) && TakenAt(source, refs, indices)
  }

  ghost predicate TakenAt(source: Source, refs: seq<SourceRef>, indices: seq<nat>) {
    && |refs| == |indices|
    && forall i :: 0 <= i < |refs| ==> indices[i] < |source.refs| && refs[i] == source.refs[indices[i]]
  }

  /** A source can serve a destination: it has the layout asked for, if one is, and a selection of its
      slots has the destination's labels. */
  ghost predicate Serves(source: Source, destination: seq<TargetRef>, keyLayout: seq<Label>) {
    (keyLayout == [] || keyLayout == source.keyLayout) && Selectable(LayoutOf(source.refs), LabelsOf(destination))
  }

  lemma SelectsIffServes(source: Source, destination: seq<TargetRef>, keyLayout: seq<Label>)
    ensures SelectRefs(source, destination, keyLayout).Some? <==> Serves(source, destination, keyLayout)
    ensures SelectRefs(source, destination, keyLayout).Some? ==>
      IsSelection(source, destination, SelectRefs(source, destination, keyLayout).value)
  {
    var layout, requested := LayoutOf(source.refs), LabelsOf(destination);
    SelectableIff(layout, requested);
    IndicesSelect(layout, requested);
    if SelectRefs(source, destination, keyLayout).Some? {
      var indices := LayoutIndices(layout, requested).value;
      assert TakenAt(source, SelectRefs(source, destination, keyLayout).value, indices);
    }
  }

  /** Whether key `i` of the request can be served as it stands. */
  ghost predicate Servable(keys: seq<BlockKey>, destinations: seq<seq<TargetRef>>, keyLayout: seq<Label>,
                           index: map<BlockKey, Option<Source>>, i: nat)
    requires i < |keys| == |destinations|
  {
    keys[i] in index && index[keys[i]].Some? && Serves(index[keys[i]].value, destinations[i], keyLayout)
  }

  /** A claim on a servable key, with a selection of that key's slots. */
  ghost predicate IsClaim(keys: seq<BlockKey>, destinations: seq<seq<TargetRef>>, index: map<BlockKey, Option<Source>>,
                          claim: ReadClaim)
    requires |keys| == |destinations|
  {
    && claim.index < |keys| && keys[claim.index] in index && index[keys[claim.index]].Some?
    && Aligned(keys[claim.index], claim.refs, destinations[claim.index])
    && IsSelection(index[keys[claim.index]].value, destinations[claim.index], claim.refs)
  }

  /** `acquire_readers`: with `allowMissing`, whatever cannot be served is left out, except that
      an unpublished residency sends the request to the caller; without it, so does anything
      that cannot be served. Each claim is aligned with the destinations of its own key. */
  method AcquireReaders(keys: seq<BlockKey>, destinations: seq<seq<TargetRef>>, keyLayout: seq<Label>,
                        index: map<BlockKey, Option<Source>>, allowMissing: bool) returns (readers: Readers)
    requires |keys| == |destinations| && Faithful(index)
    ensures readers.Unprepared? <==>
      exists i :: 0 <= i < |keys| && !Servable(keys, destinations, keyLayout, index, i)
        && (!allowMissing || (keys[i] in index && index[keys[i]].None?))
    ensures readers.Acquired? ==>
      && (forall c :: 0 <= c < |readers.claims| ==> IsClaim(keys, destinations, index, readers.claims[c]))
      && (forall c, d :: 0 <= c < d < |readers.claims| ==> readers.claims[c].index < readers.claims[d].index)
      && (forall i :: 0 <= i < |keys| ==>
          (Servable(keys, destinations, keyLayout, index, i)
           <==> exists c :: 0 <= c < |readers.claims| && readers.claims[c].index == i))
  {
    var claims: seq<ReadClaim> := [];
    for i := 0 to |keys|
      invariant forall c :: 0 <= c < |claims| ==>
        claims[c].index < i && IsClaim(keys, destinations, index, claims[c])
      invariant forall c, d :: 0 <= c < d < |claims| ==> claims[c].index < claims[d].index
      invariant forall j :: 0 <= j < i ==>
        (Servable(keys, destinations, keyLayout, index, j) <==> exists c :: 0 <= c < |claims| && claims[c].index == j)
      invariant forall j :: 0 <= j < i && !Servable(keys, destinations, keyLayout, index, j) ==>
        allowMissing && !(keys[j] in index && index[keys[j]].None?)
    {
      ghost var before := claims;
      if keys[i] !in index {
        if !allowMissing {
          return Unprepared;
        }
      } else if index[keys[i]].None? {
        return Unprepared;
      } else {
        var selected := SelectRefs(index[keys[i]].value, destinations[i], keyLayout);
        SelectsIffServes(index[keys[i]].value, destinations[i], keyLayout);
        if selected.Some? {
          SelectedAligned(keys[i], index[keys[i]].value, destinations[i], keyLayout);
          claims := claims + [ReadClaim(i, selected.value)];
          assert claims[|claims| - 1].index == i;
          assert forall c :: 0 <= c < |before| ==> claims[c] == before[c];
        } else if !allowMissing {
          return Unprepared;
        }
      }
    }
    readers := Acquired(claims);
  }

  // -- The native transfer.

  function Flatten<T>(parts: seq<seq<T>>): seq<T> {
    if parts == [] then [] else parts[0] + Flatten(parts[1..])
  }

  /** The two sides of the transfer: position by position. */
  function Sources(claims: seq<ReadClaim>): seq<seq<SourceRef>> {
    seq(|claims|, c requires 0 <= c < |claims| => claims[c].refs)
  }

  function Targets(claims: seq<ReadClaim>, destinations: seq<seq<TargetRef>>): seq<seq<TargetRef>>
    requires forall c :: 0 <= c < |claims| ==> claims[c].index < |destinations|
  {
    seq(|claims|, c requires 0 <= c < |claims| => destinations[claims[c].index])
  }

  /** Flattening keeps corresponding parts in step. */
  lemma {:induction false} InStep<S, T>(a: seq<seq<S>>, b: seq<seq<T>>, c: nat, i: nat) returns (p: nat)
    requires |a| == |b| && (forall x :: 0 <= x < |a| ==> |a[x]| == |b[x]|) && c < |a| && i < |a[c]|
    ensures p < |Flatten(a)| == |Flatten(b)| && Flatten(a)[p] == a[c][i] && Flatten(b)[p] == b[c][i]
  {
    SameLength(a, b);
    if c == 0 {
      p := i;
    } else {
      var q := InStep(a[1..], b[1..], c - 1, i);
      p := |a[0]| + q;
    }
  }

  lemma {:induction false} SameLength<S, T>(a: seq<seq<S>>, b: seq<seq<T>>)
    requires |a| == |b| && forall x :: 0 <= x < |a| ==> |a[x]| == |b[x]|
    ensures |Flatten(a)| == |Flatten(b)|
  {
    if a != [] {
      SameLength(a[1..], b[1..]);
    }
  }

  /** Copy position by position; every destination is its own place. */
  function Transfer(memory: map<nat, SourceRef>, from: seq<SourceRef>, to: seq<TargetRef>): map<nat, SourceRef>
    requires |from| == |to|
  {
    if from == [] then memory
    else Transfer(memory, from[..|from| - 1], to[..|from| - 1])[to[|from| - 1].place := from[|from| - 1]]
  }

  predicate OwnPlaces(to: seq<TargetRef>) { forall i, j :: 0 <= i < j < |to| ==> to[i].place != to[j].place }

  lemma {:induction false} Transferred(memory: map<nat, SourceRef>, from: seq<SourceRef>, to: seq<TargetRef>, p: nat)
    requires |from| == |to| && OwnPlaces(to) && p < |from|
    ensures to[p].place in Transfer(memory, from, to) && Transfer(memory, from, to)[to[p].place] == from[p]
  {
    var last := |from| - 1;
    if p < last {
      Transferred(memory, from[..last], to[..last], p);
    }
  }

  /** After a successful write, at every destination of every key reported complete lies that
      very key's piece of that very label, whichever keys were left out. */
  lemma PullIsAligned(memory: map<nat, SourceRef>, keys: seq<BlockKey>, destinations: seq<seq<TargetRef>>,
                      claims: seq<ReadClaim>, c: nat, i: nat)
    requires |keys| == |destinations|
    requires forall d :: 0 <= d < |claims| ==>
      claims[d].index < |keys| && Aligned(keys[claims[d].index], claims[d].refs, destinations[claims[d].index])
    requires c < |claims| && i < |destinations[claims[c].index]|
    requires OwnPlaces(Flatten(Targets(claims, destinations)))
    ensures var sources, targets := Flatten(Sources(claims)), Flatten(Targets(claims, destinations));
      var k, place := claims[c].index, destinations[claims[c].index][i].place;
      && |sources| == |targets| && place in Transfer(memory, sources, targets)
      && Transfer(memory, sources, targets)[place].key == keys[k]
      && Transfer(memory, sources, targets)[place].piece == destinations[k][i].piece
  {
    var p := InStep(Sources(claims), Targets(claims, destinations), c, i);
    Transferred(memory, Flatten(Sources(claims)), Flatten(Targets(claims, destinations)), p);
  }

  /** `_notification_completed_indices`: accepted exactly when the indices name different keys
      of the request. */
  predicate AcceptableIndices(indices: seq<int>, requested: nat) {
    |indices| <= requested && (forall i :: i in indices ==> 0 <= i < requested) && |set i | i in indices| == |indices|
  }

  lemma {:induction false} DistinctCount(s: seq<int>)
    ensures |set i | i in s| <= |s|
    ensures |set i | i in s| == |s| <==> Distinct(s)
  {
    if s == [] {
      assert (set i | i in s) == {};
    } else {
      var rest := s[1..];
      DistinctCount(rest);
      assert s == [s[0]] + rest;
      assert (set i | i in s) == {s[0]} + (set i | i in rest);
      if s[0] in rest {
        assert (set i | i in s) == (set i | i in rest);
        var k :| 0 <= k < |rest| && rest[k] == s[0];
        assert s[k + 1] == s[0];
      } else {
        assert Distinct(s) <==> Distinct(rest) by {
          assert forall i, j :: 0 <= i < j < |rest| ==> rest[i] == s[i + 1] && rest[j] == s[j + 1];
        }
      }
    }
  }

  /** What a source reports is always accepted by the target that asked. */
  lemma ReportIsAccepted(keys: seq<BlockKey>, claims: seq<ReadClaim>)
    requires forall c :: 0 <= c < |claims| ==> claims[c].index < |keys|
    requires forall c, d :: 0 <= c < d < |claims| ==> claims[c].index < claims[d].index
    ensures AcceptableIndices(seq(|claims|, c requires 0 <= c < |claims| => claims[c].index), |keys|)
  {
    var indices: seq<int> := seq(|claims|, c requires 0 <= c < |claims| => claims[c].index);
    DistinctCount(indices);
    IncreasingFits(indices, |keys|);
  }

  lemma {:induction false} IncreasingFits(s: seq<int>, n: nat)
    requires (forall i, j :: 0 <= i < j < |s| ==> s[i] < s[j]) && forall i :: 0 <= i < |s| ==> 0 <= s[i] < n
    ensures |s| <= n
  {
    if s != [] {
      var last := |s| - 1;
      IncreasingFits(s[..last], s[last]);
    }
  }

  // -- Route generations.

  datatype Routed = Routed(generation: map<string, nat>, posted: set<nat>)
  datatype RouteStep = Reroute(name: string) | Post(op: nat, name: string, accepted: nat)

  function Generation(s: Routed, name: string): nat { if name in s.generation then s.generation[name] else 0 }

  /** A write is posted only if its route is still the generation it was accepted under. */
  function ApplyRoute(s: Routed, step: RouteStep): Routed {
    match step
    case Reroute(name) => s.(generation := s.generation[name := Generation(s, name) + 1])
    case Post(op, name, accepted) =>
      if name != "" && Generation(s, name) != accepted then s else s.(posted := s.posted + {op})
  }

  function RunRoutes(s: Routed, steps: seq<RouteStep>): Routed {
    if steps == [] then s else ApplyRoute(RunRoutes(s, steps[..|steps| - 1]), steps[|steps| - 1])
  }

  lemma {:induction false} GenerationsGrow(s: Routed, steps: seq<RouteStep>, name: string)
    ensures Generation(RunRoutes(s, steps), name) >= Generation(s, name)
    ensures Generation(RunRoutes(s, steps), name) == Generation(s, name)
      <==> forall i :: 0 <= i < |steps| ==> steps[i] != Reroute(name)
  {
    if steps != [] {
      var rest := steps[..|steps| - 1];
      GenerationsGrow(s, rest, name);
      assert forall i :: 0 <= i < |rest| ==> steps[i] == rest[i];
    }
  }

  /** A write accepted at `s` is posted later exactly if its peer was never re-routed. */
  lemma PostedOnlyOnItsRoute(s: Routed, steps: seq<RouteStep>, op: nat, name: string)
    requires name != "" && op !in RunRoutes(s, steps).posted
    ensures op in ApplyRoute(RunRoutes(s, steps), Post(op, name, Generation(s, name))).posted
      <==> forall i :: 0 <= i < |steps| ==> steps[i] != Reroute(name)
  {
    GenerationsGrow(s, steps, name);
  }
}
