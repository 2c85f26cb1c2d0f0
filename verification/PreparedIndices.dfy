/**
 Flat indices into prepared memory. The regions of one memory type, framework regions first, are
 laid end to end; a reference becomes its region's offset plus its element. Resolving a list of
 references caches what a label resolved to.
 */
module PreparedIndices {
  import opened Prelude
  import opened Layouts
  import opened Allocation

  datatype Region = Region(name: Label, count: nat, size: nat, memType: string)
  datatype Entry = Entry(framework: bool, region: Region)
  datatype Ref = Ref(owner: string, piece: Label, element: int, framework: bool)

  /** An agent's registered regions, by namespace, and who owns them. */
  datatype Catalog = Catalog(owner: string, framework: seq<Region>, kvcr: seq<Region>)

  predicate DistinctLabels(regions: seq<Region>) {
    forall i, j :: 0 <= i < j < |regions| ==> regions[i].name != regions[j].name
  }

  ghost predicate Valid(c: Catalog) { DistinctLabels(c.framework) && DistinctLabels(c.kvcr) }

  /** Where the regions of one memory type are, from `from` on. */
  function OfType(regions: seq<Region>, m: string, from: nat): (r: seq<nat>)
    requires from <= |regions|
    ensures forall i :: i in r <==> from <= i < |regions| && regions[i].memType == m
    ensures Increasing(r) && forall k :: 0 <= k < |r| ==> r[k] < |regions|
    decreases |regions| - from
  {
    if from == |regions| then []
    else
      var rest := OfType(regions, m, from + 1);
      assert forall k :: 0 <= k < |rest| ==> rest[k] in rest;
      if regions[from].memType == m then [from] + rest else rest
  }

  /** The regions of one memory type and one namespace, from `from` on. */
  function Tag(framework: bool, regions: seq<Region>, m: string, from: nat): seq<Entry>
    requires from <= |regions|
    decreases |regions| - from
  {
    if from == |regions| then []
    else
      var rest := Tag(framework, regions, m, from + 1);
      if regions[from].memType == m then [Entry(framework, regions[from])] + rest else rest
  }

  lemma {:induction false} TagIs(framework: bool, regions: seq<Region>, m: string, from: nat)
    requires from <= |regions|
    ensures var tags, places := Tag(framework, regions, m, from), OfType(regions, m, from);
      && |tags| == |places|
      && forall k :: 0 <= k < |tags| ==> tags[k] == Entry(framework, regions[places[k]])
    decreases |regions| - from
  {
    if from < |regions| {
      TagIs(framework, regions, m, from + 1);
    }
  }

  /** The regions of one memory type in the order they are laid out. */
  function EntriesOf(c: Catalog, m: string): seq<Entry> {
    Tag(true, c.framework, m, 0) + Tag(false, c.kvcr, m, 0)
  }

  function Total(entries: seq<Entry>): nat {
    if entries == [] then 0 else Total(entries[..|entries| - 1]) + entries[|entries| - 1].region.count
  }

  /** The prefix sum up to the region with this label. */
  function Offset(entries: seq<Entry>, framework: bool, piece: Label): nat {
    if entries == [] then 0
    else
      var last := entries[|entries| - 1];
      if last.framework == framework && last.region.name == piece then Total(entries[..|entries| - 1])
      else Offset(entries[..|entries| - 1], framework, piece)
  }

  ghost predicate Has(entries: seq<Entry>, framework: bool, piece: Label) {
    exists e :: e in entries && e.framework == framework && e.region.name == piece
  }

  /** Building the offsets of one namespace in a single pass, as `prepare_memory` does. */
  method BuildOffsets(entries: seq<Entry>, framework: bool) returns (offsets: map<Label, nat>)
    ensures forall piece :: piece in offsets <==> Has(entries, framework, piece)
    ensures forall piece :: piece in offsets ==> offsets[piece] == Offset(entries, framework, piece)
  {
    offsets := map[];
    var offset := 0;
    for i := 0 to |entries|
      invariant offset == Total(entries[..i])
      invariant forall piece :: piece in offsets <==> Has(entries[..i], framework, piece)
      invariant forall piece :: piece in offsets ==> offsets[piece] == Offset(entries[..i], framework, piece)
    {
      var e := entries[i];
      assert entries[..i + 1] == entries[..i] + [e];
      assert entries[..i + 1][..i] == entries[..i];
      if e.framework == framework {
        offsets := offsets[e.region.name := offset];
      }
      offset := offset + e.region.count;
    }
    assert entries[..|entries|] == entries;
  }

  /** No label twice within a namespace. */
  ghost predicate OneEach(entries: seq<Entry>) {
    forall i, j :: 0 <= i < j < |entries| ==>
      entries[i].framework != entries[j].framework || entries[i].region.name != entries[j].region.name
  }

  lemma TagHas(framework: bool, regions: seq<Region>, region: Region)
    requires region in regions
    ensures Entry(framework, region) in Tag(framework, regions, region.memType, 0)
  {
    TagIs(framework, regions, region.memType, 0);
    var places := OfType(regions, region.memType, 0);
    var i :| 0 <= i < |regions| && regions[i] == region;
    assert i in places;
    var k :| 0 <= k < |places| && places[k] == i;
    assert Tag(framework, regions, region.memType, 0)[k] == Entry(framework, region);
  }

  lemma TagOneEach(framework: bool, regions: seq<Region>, m: string)
    requires DistinctLabels(regions)
    ensures OneEach(Tag(framework, regions, m, 0))
    ensures forall e :: e in Tag(framework, regions, m, 0) ==> e.framework == framework
  {
    TagIs(framework, regions, m, 0);
  }

  lemma EntriesOneEach(c: Catalog, m: string)
    requires Valid(c)
    ensures OneEach(EntriesOf(c, m))
  {
    TagOneEach(true, c.framework, m);
    TagOneEach(false, c.kvcr, m);
    var a, b := Tag(true, c.framework, m, 0), Tag(false, c.kvcr, m, 0);
    var all := EntriesOf(c, m);
    forall i, j | 0 <= i < j < |all|
      ensures all[i].framework != all[j].framework || all[i].region.name != all[j].region.name
    {
      if i < |a| <= j {
        assert all[i] == a[i] && all[j] == b[j - |a|] && a[i] in a && b[j - |a|] in b;
      } else if i >= |a| {
        assert all[i] == b[i - |a|] && all[j] == b[j - |a|];
      }
    }
  }

  /** The regions are laid out as they were registered, the framework's before KVCR's own. */
  lemma EntriesOrder(c: Catalog, m: string, i: nat, j: nat)
    requires i < j < |EntriesOf(c, m)|
    ensures var x, y := EntriesOf(c, m)[i], EntriesOf(c, m)[j];
      if x.framework != y.framework then x.framework
      else InTurn(if x.framework then c.framework else c.kvcr, x.region, y.region)
  {
    var first, second := Tag(true, c.framework, m, 0), Tag(false, c.kvcr, m, 0);
    var a, b := OfType(c.framework, m, 0), OfType(c.kvcr, m, 0);
    TagIs(true, c.framework, m, 0);
    TagIs(false, c.kvcr, m, 0);
    if j < |first| {
      assert EntriesOf(c, m)[i] == first[i] && EntriesOf(c, m)[j] == first[j];
    } else if i >= |first| {
      assert EntriesOf(c, m)[i] == second[i - |first|] && EntriesOf(c, m)[j] == second[j - |first|];
    } else {
      assert EntriesOf(c, m)[i] == first[i] && EntriesOf(c, m)[j] == second[j - |first|];
    }
  }

  ghost predicate InTurn(regions: seq<Region>, x: Region, y: Region) {
    exists a, b :: 0 <= a < b < |regions| && regions[a] == x && regions[b] == y
  }

  lemma {:induction false} OffsetIs(entries: seq<Entry>, i: nat)
    requires OneEach(entries) && i < |entries|
    ensures Offset(entries, entries[i].framework, entries[i].region.name) == Total(entries[..i])
    ensures Total(entries[..i]) + entries[i].region.count <= Total(entries)
    decreases |entries|
  {
    var last := |entries| - 1;
    if i < last {
      OffsetIs(entries[..last], i);
      assert entries[..last][..i] == entries[..i];
    }
  }

  lemma {:induction false} TotalGrows(entries: seq<Entry>, i: nat, j: nat)
    requires i < j <= |entries|
    ensures Total(entries[..i]) + entries[i].region.count <= Total(entries[..j])
    decreases j
  {
    assert entries[..j][..j - 1] == entries[..j - 1];
    if i + 1 < j {
      TotalGrows(entries, i, j - 1);
    } else {
      assert entries[..j][|entries[..j]| - 1] == entries[i];
    }
  }

  // -- Resolving references.

  function Find(regions: seq<Region>, piece: Label): (r: Option<Region>)
    ensures r.Some? ==> r.value in regions && r.value.name == piece
    ensures r.None? ==> forall region :: region in regions ==> region.name != piece
  {
    if regions == [] then None else if regions[0].name == piece then Some(regions[0]) else Find(regions[1..], piece)
  }

  /** A framework label may fall back to its pool's wildcard region; a KVCR label names a pool. */
  function LookUpRegion(c: Catalog, ref: Ref): Option<Region> {
    if ref.framework then
      match Find(c.framework, ref.piece)
      case Some(region) => Some(region)
      case None => if ':' in ref.piece then Find(c.framework, PoolOf(ref.piece) + ":*") else None
    else Find(c.kvcr, PoolOf(ref.piece))
  }

  /** `_resolve_region`; `None` stands for its errors. */
  function Resolve(c: Catalog, ref: Ref): Option<Region> {
    if ref.owner != c.owner then None
    else
      match LookUpRegion(c, ref)
      case None => None
      case Some(region) => if 0 <= ref.element < region.count then Some(region) else None
  }

  /** The region a label is about: a KVCR label is about its pool's; a framework label about the one of
      that name or, failing that and if it names a part, about its pool's wildcard region. */
  ghost predicate IsAbout(c: Catalog, ref: Ref, region: Region) {
    if !ref.framework then region in c.kvcr && region.name == PoolOf(ref.piece)
    else
      && region in c.framework
      && (|| region.name == ref.piece
          || (&& region.name == PoolOf(ref.piece) + ":*" && ':' in ref.piece
              && forall other :: other in c.framework ==> other.name != ref.piece))
  }

  lemma NamedOnce(regions: seq<Region>, a: Region, b: Region)
    requires DistinctLabels(regions) && a in regions && b in regions && a.name == b.name
    ensures a == b
  {
    var i :| 0 <= i < |regions| && regions[i] == a;
    var j :| 0 <= j < |regions| && regions[j] == b;
    assert !(i < j) && !(j < i);
  }

  /** A reference resolves to a region exactly if it is the owner's, is about that region and lies in it. */
  lemma ResolvesIff(c: Catalog, ref: Ref, region: Region)
    requires Valid(c)
    ensures Resolve(c, ref) == Some(region)
      <==> ref.owner == c.owner && IsAbout(c, ref, region) && 0 <= ref.element < region.count
  {
    var found := LookUpRegion(c, ref);
    if IsAbout(c, ref, region) {
      if found.Some? {
        NamedOnce(if ref.framework then c.framework else c.kvcr, found.value, region);
      }
    }
  }

  /** The index of one reference, resolved on its own, in the list of memory type `m`. */
  function IndexOf(c: Catalog, m: string, ref: Ref): Option<int> {
    match Resolve(c, ref)
    case None => None
    case Some(region) =>
      if region.memType != m then None else Some(Offset(EntriesOf(c, m), ref.framework, region.name) + ref.element)
  }

  function IndicesOf(c: Catalog, m: string, refs: seq<Ref>): Option<seq<int>> {
    if refs == [] then Some([])
    else
      match (IndicesOf(c, m, refs[..|refs| - 1]), IndexOf(c, m, refs[|refs| - 1]))
      case (Some(rest), Some(index)) => Some(rest + [index])
      case _ => None
  }

  /** The reference is about the region at place `e` of the layout and lies in it. Its index is `x`: so
      many elements come before it. */
  ghost predicate LiesAt(c: Catalog, m: string, ref: Ref, e: nat, x: int) {
    var entries := EntriesOf(c, m);
    && e < |entries| && entries[e].framework == ref.framework && IsAbout(c, ref, entries[e].region)
    && 0 <= ref.element < entries[e].region.count && x == Total(entries[..e]) + ref.element
  }

  ghost predicate Lies(c: Catalog, m: string, ref: Ref, x: int) {
    0 <= x < Total(EntriesOf(c, m)) && exists e: nat :: LiesAt(c, m, ref, e, x)
  }

  /** The references are to the same element of the same region. */
  ghost predicate SameElement(c: Catalog, a: Ref, b: Ref) {
    && a.framework == b.framework && a.element == b.element
    && exists region :: IsAbout(c, a, region) && IsAbout(c, b, region)
  }

  /** Each index is where its reference lies, and two are equal exactly if they are for the same element. */
  ghost predicate Indexes(c: Catalog, m: string, refs: seq<Ref>, out: seq<int>) {
    && |out| == |refs| && (forall i :: 0 <= i < |refs| ==> Lies(c, m, refs[i], out[i]))
    && (forall i, j :: 0 <= i < |refs| && 0 <= j < |refs| ==> (out[i] == out[j] <==> SameElement(c, refs[i], refs[j])))
  }

  lemma IndexLies(c: Catalog, m: string, ref: Ref)
    requires Valid(c) && IndexOf(c, m, ref).Some?
    ensures Lies(c, m, ref, IndexOf(c, m, ref).value)
  {
    var region, entries := Resolve(c, ref).value, EntriesOf(c, m);
    ResolvesIff(c, ref, region);
    EntriesOneEach(c, m);
    TagHas(ref.framework, if ref.framework then c.framework else c.kvcr, region);
    assert Entry(ref.framework, region) in entries;
    var e: nat :| e < |entries| && entries[e] == Entry(ref.framework, region);
    OffsetIs(entries, e);
    assert LiesAt(c, m, ref, e, IndexOf(c, m, ref).value);
  }

  lemma AboutOnce(c: Catalog, ref: Ref, region: Region, other: Region)
    requires Valid(c) && IsAbout(c, ref, region) && IsAbout(c, ref, other)
    ensures region == other
  {
    NamedOnce(if ref.framework then c.framework else c.kvcr, region, other);
  }

  lemma SamePlace(c: Catalog, m: string, a: Ref, i: nat, x: int, b: Ref, j: nat, y: int)
    requires Valid(c) && LiesAt(c, m, a, i, x) && LiesAt(c, m, b, j, y) && SameElement(c, a, b)
    ensures i == j && x == y
  {
    var entries := EntriesOf(c, m);
    var region :| IsAbout(c, a, region) && IsAbout(c, b, region);
    AboutOnce(c, a, region, entries[i].region);
    AboutOnce(c, b, region, entries[j].region);
    EntriesOneEach(c, m);
    assert !(i < j) && !(j < i);
  }

  lemma LiesApart(c: Catalog, m: string, a: Ref, x: int, b: Ref, y: int)
    requires Valid(c) && Lies(c, m, a, x) && Lies(c, m, b, y)
    ensures x == y <==> SameElement(c, a, b)
  {
    var entries := EntriesOf(c, m);
    var i: nat :| LiesAt(c, m, a, i, x);
    var j: nat :| LiesAt(c, m, b, j, y);
    if i < j {
      TotalGrows(entries, i, j);
    } else if j < i {
      TotalGrows(entries, j, i);
    }
    if SameElement(c, a, b) {
      SamePlace(c, m, a, i, x, b, j, y);
    }
  }

  lemma {:induction false} IndicesLie(c: Catalog, m: string, refs: seq<Ref>)
    requires Valid(c) && IndicesOf(c, m, refs).Some?
    ensures |IndicesOf(c, m, refs).value| == |refs|
    ensures forall i :: 0 <= i < |refs| ==> Lies(c, m, refs[i], IndicesOf(c, m, refs).value[i])
  {
    if refs != [] {
      IndicesLie(c, m, refs[..|refs| - 1]);
      IndexLies(c, m, refs[|refs| - 1]);
    }
  }

  /** However references are resolved, each gets the number of elements laid out before it; so different
      elements never share an index, and every index lies within the prepared list. */
  lemma IndicesAreApart(c: Catalog, m: string, refs: seq<Ref>)
    requires Valid(c) && IndicesOf(c, m, refs).Some?
    ensures Indexes(c, m, refs, IndicesOf(c, m, refs).value)
  {
    IndicesLie(c, m, refs);
    var out := IndicesOf(c, m, refs).value;
    forall i, j | 0 <= i < |refs| && 0 <= j < |refs| ensures out[i] == out[j] <==> SameElement(c, refs[i], refs[j]) {
      LiesApart(c, m, refs[i], out[i], refs[j], out[j]);
    }
  }

  type Cache = map<(bool, Label), (nat, nat)>

  /** The reference as its owner would have written it. */
  function Own(c: Catalog, ref: Ref): Ref { ref.(owner := c.owner) }

  function OwnAll(c: Catalog, refs: seq<Ref>): seq<Ref> { seq(|refs|, i requires 0 <= i < |refs| => Own(c, refs[i])) }

  /** A cache entry says what its label resolves to. */
  ghost predicate CacheOk(c: Catalog, m: string, cache: Cache) {
    forall ns, piece :: (ns, piece) in cache ==>
      var region := LookUpRegion(c, Ref(c.owner, piece, 0, ns));
      region.Some? && region.value.memType == m
        && cache[(ns, piece)] == (region.value.count, Offset(EntriesOf(c, m), ns, region.value.name))
  }

  /** An earlier reference has the same label in the same namespace. */
  ghost predicate SeenBefore(refs: seq<Ref>, i: nat)
    requires i < |refs|
  {
    exists j :: 0 <= j < i && (refs[j].framework, refs[j].piece) == (refs[i].framework, refs[i].piece)
  }

  /** The first reference to each label is the owner's. */
  ghost predicate FirstUsesOwned(c: Catalog, refs: seq<Ref>) { forall i :: FirstUseOwned(c, refs, i) }

  ghost predicate FirstUseOwned(c: Catalog, refs: seq<Ref>, i: nat) {
    i < |refs| && !SeenBefore(refs, i) ==> refs[i].owner == c.owner
  }

  /** Every reference resolved on its own, as its owner's, but refused if the first use of some
      label is not the owner's. */
  ghost function Expected(c: Catalog, m: string, refs: seq<Ref>): Option<seq<int>> {
    if FirstUsesOwned(c, refs) then IndicesOf(c, m, OwnAll(c, refs)) else None
  }

  /** The labels referred to, by namespace. */
  ghost function NamesOf(refs: seq<Ref>): set<(bool, Label)> {
    if refs == [] then {} else NamesOf(refs[..|refs| - 1]) + {(refs[|refs| - 1].framework, refs[|refs| - 1].piece)}
  }

  lemma {:induction false} SeenIsNamed(refs: seq<Ref>, i: nat, ns: bool, piece: Label)
    requires i <= |refs|
    ensures (ns, piece) in NamesOf(refs[..i])
      <==> exists j :: 0 <= j < i && (refs[j].framework, refs[j].piece) == (ns, piece)
  {
    if i > 0 {
      SeenIsNamed(refs, i - 1, ns, piece);
      assert refs[..i][..i - 1] == refs[..i - 1];
    }
  }

  /** One turn of the loop: a label seen before only has its element checked. */
  function Turn(c: Catalog, m: string, cache: Cache, ref: Ref): Option<(Cache, int)> {
    var name := (ref.framework, ref.piece);
    if name !in cache then
      match Resolve(c, ref)
      case None => None
      case Some(region) =>
        if region.memType != m then None
        else
          var offset := Offset(EntriesOf(c, m), ref.framework, region.name);
          Some((cache[name := (region.count, offset)], offset + ref.element))
    else
      var (count, offset) := cache[name];
      if 0 <= ref.element < count then Some((cache, offset + ref.element)) else None
  }

  lemma TurnMeans(c: Catalog, m: string, cache: Cache, ref: Ref)
    requires CacheOk(c, m, cache)
    ensures Turn(c, m, cache, ref).Some?
      <==> ((ref.framework, ref.piece) in cache || ref.owner == c.owner) && IndexOf(c, m, Own(c, ref)).Some?
    ensures Turn(c, m, cache, ref).Some? ==>
      && Some(Turn(c, m, cache, ref).value.1) == IndexOf(c, m, Own(c, ref))
      && CacheOk(c, m, Turn(c, m, cache, ref).value.0)
      && Turn(c, m, cache, ref).value.0.Keys == cache.Keys + {(ref.framework, ref.piece)}
  {
    SameLookUp(c, ref);
    assert (ref.framework, ref.piece) in cache ==> CacheOk(c, m, cache);
  }

  /** `_prepared_indices`: the memory type of the first reference decides the list; a label seen
      before is not resolved again, so only its element is checked. The result is that of
      resolving every reference on its own, as its owner's, and is refused besides exactly when
      the first use of some label is not the owner's. */
  method CachedIndices(c: Catalog, m: string, refs: seq<Ref>) returns (indices: Option<seq<int>>)
    ensures indices == Expected(c, m, refs)
    ensures Valid(c) && indices.Some? ==> Indexes(c, m, refs, indices.value)
  {
    var cache: Cache := map[];
    var out: seq<int> := [];
    NothingExpected(c, m, refs[..0]);
    for i := 0 to |refs|
      invariant CacheOk(c, m, cache) && cache.Keys == NamesOf(refs[..i])
      invariant Expected(c, m, refs[..i]) == Some(out)
    {
      Extend(c, m, refs, i);
      TurnMeans(c, m, cache, refs[i]);
      SeenIsNamed(refs, i, refs[i].framework, refs[i].piece);
      assert refs[..i + 1][..i] == refs[..i];
      match Turn(c, m, cache, refs[i])
      case None =>
        Refused(c, m, refs, i);
        return None;
      case Some((more, index)) =>
        cache, out := more, out + [index];
    }
    assert refs[..|refs|] == refs;
    indices := Some(out);
    if Valid(c) {
      ExpectedIndexes(c, m, refs);
    }
  }

  lemma OwnIsAlike(c: Catalog, m: string, refs: seq<Ref>, out: seq<int>)
    requires Indexes(c, m, OwnAll(c, refs), out)
    ensures Indexes(c, m, refs, out)
  {
    var owned := OwnAll(c, refs);
    forall i | 0 <= i < |refs| ensures Lies(c, m, refs[i], out[i]) {
      var e: nat :| LiesAt(c, m, owned[i], e, out[i]);
      assert LiesAt(c, m, refs[i], e, out[i]);
    }
    forall i, j | 0 <= i < |refs| && 0 <= j < |refs| ensures out[i] == out[j] <==> SameElement(c, refs[i], refs[j]) {
      assert SameElement(c, owned[i], owned[j]) <==> SameElement(c, refs[i], refs[j]) by {
        forall region
          ensures IsAbout(c, owned[i], region) <==> IsAbout(c, refs[i], region)
          ensures IsAbout(c, owned[j], region) <==> IsAbout(c, refs[j], region)
        {
        }
      }
    }
  }

  lemma ExpectedIndexes(c: Catalog, m: string, refs: seq<Ref>)
    requires Valid(c) && Expected(c, m, refs).Some?
    ensures Indexes(c, m, refs, Expected(c, m, refs).value)
  {
    IndicesAreApart(c, m, OwnAll(c, refs));
    OwnIsAlike(c, m, refs, Expected(c, m, refs).value);
  }

  lemma NothingExpected(c: Catalog, m: string, none: seq<Ref>)
    requires none == []
    ensures Expected(c, m, none) == Some([])
  {
    assert OwnAll(c, none) == [];
    forall i: nat ensures FirstUseOwned(c, none, i) { }
  }

  /** The memory type of the first reference decides the prepared list. */
  method Prepare(c: Catalog, refs: seq<Ref>) returns (prepared: Option<(string, seq<int>)>)
    requires refs != []
    ensures Resolve(c, refs[0]).None? ==> prepared.None?
    ensures Resolve(c, refs[0]).Some? ==>
      var m := Resolve(c, refs[0]).value.memType;
      prepared == match Expected(c, m, refs) case None => None case Some(indices) => Some((m, indices))
    ensures Valid(c) && prepared.Some? ==> Indexes(c, prepared.value.0, refs, prepared.value.1)
  {
    var first := Resolve(c, refs[0]);
    if first.None? {
      return None;
    }
    var indices := CachedIndices(c, first.value.memType, refs);
    prepared := if indices.Some? then Some((first.value.memType, indices.value)) else None;
  }

  lemma SameLookUp(c: Catalog, ref: Ref)
    ensures LookUpRegion(c, ref) == LookUpRegion(c, Ref(c.owner, ref.piece, 0, ref.framework))
      == LookUpRegion(c, Own(c, ref))
  {
  }

  /** One more reference. */
  lemma Extend(c: Catalog, m: string, refs: seq<Ref>, i: nat)
    requires i < |refs|
    ensures Expected(c, m, refs[..i + 1]) ==
      if refs[i].owner != c.owner && !SeenBefore(refs, i) then None
      else
        match (Expected(c, m, refs[..i]), IndexOf(c, m, Own(c, refs[i])))
        case (Some(rest), Some(index)) => Some(rest + [index])
        case _ => None
  {
    var more, less := refs[..i + 1], refs[..i];
    assert OwnAll(c, more)[..i] == OwnAll(c, less);
    assert OwnAll(c, more)[i] == Own(c, refs[i]);
    forall j: nat | j < i ensures SeenBefore(more, j) <==> SeenBefore(less, j) { }
    assert SeenBefore(more, i) <==> SeenBefore(refs, i);
    forall j: nat ensures FirstUseOwned(c, less, j) <==> (j == i || FirstUseOwned(c, more, j)) { }
    assert FirstUsesOwned(c, more) <==> FirstUsesOwned(c, less) && FirstUseOwned(c, more, i) by {
      if FirstUsesOwned(c, more) {
        forall j: nat ensures FirstUseOwned(c, less, j) { assert FirstUseOwned(c, more, j); }
      }
      if FirstUsesOwned(c, less) && FirstUseOwned(c, more, i) {
        forall j: nat ensures FirstUseOwned(c, more, j) { assert FirstUseOwned(c, less, j); }
      }
    }
  }

  /** Once a prefix is refused, so is the whole list. */
  lemma {:induction false} Refused(c: Catalog, m: string, refs: seq<Ref>, i: nat)
    requires i < |refs| && Expected(c, m, refs[..i + 1]).None?
    ensures Expected(c, m, refs).None?
    decreases |refs| - i
  {
    if i + 1 < |refs| {
      Extend(c, m, refs, i + 1);
      Refused(c, m, refs, i + 1);
    } else {
      assert refs[..i + 1] == refs;
    }
  }

  // -- What gets this far.

  /** What follows the pool in a label that names a part. */
  function PartOf(piece: Label): (r: Option<Label>) {
    if ':' !in piece then None else if piece[0] == ':' then Some(piece[1..]) else PartOf(piece[1..])
  }

  /** One reference passes: it resolves for its owner, names a configured pool and not the pool's
      wildcard, and its region has the pool's block size. */
  predicate Passes(c: Catalog, sizes: map<Label, nat>, ref: Ref) {
    && Resolve(c, ref).Some? && PoolOf(ref.piece) in sizes && PartOf(ref.piece) !in {Some(""), Some("*")}
    && Resolve(c, ref).value.size == sizes[PoolOf(ref.piece)]
  }

  /** No part of a block is named twice. */
  predicate PartsOnce(refs: seq<Ref>) {
    forall i, j :: 0 <= i < j < |refs| && refs[i].piece == refs[j].piece ==> PartOf(refs[i].piece).None?
  }

  predicate Admissible(c: Catalog, sizes: map<Label, nat>, refs: seq<Ref>) {
    refs != [] && (forall i :: 0 <= i < |refs| ==> Passes(c, sizes, refs[i])) && PartsOnce(refs)
  }

  /** `_validate_descriptors`: the check of a block's references, from the framework or from
      another process, against the regions of the agent they are said to belong to. */
  method Validate(c: Catalog, sizes: map<Label, nat>, refs: seq<Ref>) returns (ok: bool)
    ensures ok <==> Admissible(c, sizes, refs)
  {
    if refs == [] {
      return false;
    }
    var parts: set<Label> := {};
    for i := 0 to |refs|
      invariant forall j :: 0 <= j < i ==> Passes(c, sizes, refs[j])
      invariant PartsOnce(refs[..i])
      invariant parts == set j | 0 <= j < i && PartOf(refs[j].piece).Some? :: refs[j].piece
    {
      var ref := refs[i];
      if !Passes(c, sizes, ref) {
        return false;
      }
      assert refs[..i + 1] == refs[..i] + [ref];
      if PartOf(ref.piece).Some? {
        if ref.piece in parts {
          return false;
        }
        parts := parts + {ref.piece};
      }
    }
    assert refs[..|refs|] == refs;
    ok := true;
  }

  /** The references of a transfer: those of its blocks, one block after the other. */
  function Flat(blocks: seq<seq<Ref>>): seq<Ref> {
    if blocks == [] then [] else Flat(blocks[..|blocks| - 1]) + blocks[|blocks| - 1]
  }

  lemma {:induction false} FlatPasses(c: Catalog, sizes: map<Label, nat>, blocks: seq<seq<Ref>>)
    requires forall b :: b in blocks ==> Admissible(c, sizes, b)
    ensures forall r :: r in Flat(blocks) ==> Passes(c, sizes, r)
  {
    if blocks != [] {
      FlatPasses(c, sizes, blocks[..|blocks| - 1]);
      assert blocks[|blocks| - 1] in blocks;
    }
  }

  /** Every reference resolves to a region of memory type `m`. */
  ghost predicate AllOf(c: Catalog, m: string, refs: seq<Ref>) {
    forall i :: 0 <= i < |refs| ==> Resolve(c, refs[i]).Some? && Resolve(c, refs[i]).value.memType == m
  }

  lemma {:induction false} IndicesOfAll(c: Catalog, m: string, refs: seq<Ref>)
    ensures IndicesOf(c, m, refs).Some? <==> AllOf(c, m, refs)
  {
    if refs != [] {
      var rest, last := refs[..|refs| - 1], refs[|refs| - 1];
      IndicesOfAll(c, m, rest);
      assert AllOf(c, m, refs) <==> AllOf(c, m, rest) && IndexOf(c, m, last).Some? by {
        assert forall i :: 0 <= i < |rest| ==> rest[i] == refs[i];
        if AllOf(c, m, rest) && IndexOf(c, m, last).Some? {
          forall i | 0 <= i < |refs| ensures Resolve(c, refs[i]).Some? && Resolve(c, refs[i]).value.memType == m {
            if i < |rest| { assert rest[i] == refs[i]; }
          }
        }
      }
    }
  }

  /** Caching changes the result of no list that passed the check: each reference gets the index it
      would get on its own, and the list is refused exactly if its memory types differ. */
  lemma AdmittedResolveAlike(c: Catalog, sizes: map<Label, nat>, m: string, blocks: seq<seq<Ref>>)
    requires forall b :: b in blocks ==> Admissible(c, sizes, b)
    ensures Expected(c, m, Flat(blocks)) == IndicesOf(c, m, Flat(blocks))
    ensures Expected(c, m, Flat(blocks)).Some? <==> AllOf(c, m, Flat(blocks))
  {
    var refs := Flat(blocks);
    FlatPasses(c, sizes, blocks);
    forall i | 0 <= i < |refs| ensures refs[i].owner == c.owner { assert refs[i] in refs; }
    ResolveAlikeIffOwned(c, m, refs);
    IndicesOfAll(c, m, refs);
  }

  /** In general: caching agrees with resolving each reference on its own exactly if the agent owns
      them all, or the list is refused anyway. */
  lemma ResolveAlikeIffOwned(c: Catalog, m: string, refs: seq<Ref>)
    ensures Expected(c, m, refs) == IndicesOf(c, m, refs)
      <==> (forall i :: 0 <= i < |refs| ==> refs[i].owner == c.owner) || Expected(c, m, refs).None?
  {
    if forall i :: 0 <= i < |refs| ==> refs[i].owner == c.owner {
      assert OwnAll(c, refs) == refs;
      forall i: nat ensures FirstUseOwned(c, refs, i) { }
    } else {
      IndicesOfAll(c, m, refs);
    }
  }
}
