/**
 Where a block's bytes go on disk. A slot is a fixed-size unit of one of several files, dealt
 out round-robin; a piece of a block is cut into units and takes as many slots.
 */
module DiskContent {
  import opened Prelude
  import opened Layouts
  import opened Allocation
  import opened Frames

  datatype Place = Place(file: nat, offset: nat)

  function Descriptor(slot: nat, files: nat, unit: nat): Place
    requires files > 0
  {
    Place(slot % files, slot / files * unit)
  }

  /** Different slots are different places, units of one file do not overlap, and every slot
      below the total lies wholly within its file. */
  lemma SlotsDoNotOverlap(a: nat, b: nat, files: nat, perFile: nat, unit: nat)
    requires files > 0 && unit > 0 && a < b < files * perFile
    ensures var p, q := Descriptor(a, files, unit), Descriptor(b, files, unit);
      && p.file < files && q.file < files
      && p.offset + unit <= perFile * unit && q.offset + unit <= perFile * unit
      && (p.file != q.file || p.offset + unit <= q.offset)
  {
    InFile(a, files, perFile, unit);
    InFile(b, files, perFile, unit);
    if a % files == b % files {
      LaterRow(a, b, files);
      MulMono(a / files + 1, b / files, unit);
      Distribute(a / files, unit);
    }
  }

  /** Two slots of one file, the later one in a later row. */
  lemma LaterRow(a: nat, b: nat, files: nat)
    requires files > 0 && a < b && a % files == b % files
    ensures a / files < b / files
  {
    assert a == files * (a / files) + a % files;
    assert b == files * (b / files) + b % files;
    assert b - a == files * (b / files) - files * (a / files);
    Difference(files, b / files, a / files);
    PositiveFactor(b / files - a / files, files);
  }

  lemma Difference(a: nat, b: nat, c: nat)
    ensures a * b - a * c == (b - c) * a
  {
  }

  lemma Distribute(a: nat, b: nat)
    ensures (a + 1) * b == a * b + b
  {
  }

  lemma InFile(slot: nat, files: nat, perFile: nat, unit: nat)
    requires files > 0 && slot < files * perFile
    ensures slot / files < perFile && slot % files < files && slot / files * unit + unit <= perFile * unit
  {
    assert slot == slot / files * files + slot % files;
    if slot / files >= perFile {
      MulMono(perFile, slot / files, files);
      assert false;
    }
    MulMono(slot / files + 1, perFile, unit);
    assert (slot / files + 1) * unit == slot / files * unit + unit;
  }

  lemma PositiveFactor(a: int, b: nat)
    requires a * b > 0
    ensures a > 0
  {
    if a <= 0 {
      MulMono(0, -a, b);
    }
  }

  lemma MulMono(a: nat, b: nat, c: nat)
    requires a <= b
    ensures a * c <= b * c
  {
  }

  // -- Cutting memory into units.

  function Chunks(bytes: seq<Byte>, unit: nat): seq<seq<Byte>>
    requires unit > 0
    decreases |bytes|
  {
    if |bytes| < unit then [] else [bytes[..unit]] + Chunks(bytes[unit..], unit)
  }

  function Join(chunks: seq<seq<Byte>>): seq<Byte> {
    if chunks == [] then [] else chunks[0] + Join(chunks[1..])
  }

  lemma {:induction false} JoinChunks(bytes: seq<Byte>, unit: nat, n: nat)
    requires unit > 0 && |bytes| == n * unit
    ensures Join(Chunks(bytes, unit)) == bytes && |Chunks(bytes, unit)| == n
    decreases n
  {
    if n == 0 {
      assert |bytes| == 0;
    } else {
      assert n * unit == unit + (n - 1) * unit;
      JoinChunks(bytes[unit..], unit, n - 1);
      assert Chunks(bytes, unit)[1..] == Chunks(bytes[unit..], unit);
      assert bytes == bytes[..unit] + bytes[unit..];
    }
  }

  // -- Pieces of a block.

  /** The number of slots each label takes. */
  function Widths(layout: seq<Label>, sizes: map<string, nat>, unit: nat): (r: seq<nat>)
    requires unit > 0 && forall i :: 0 <= i < |layout| ==> PoolOf(layout[i]) in sizes
    ensures |r| == |layout| && forall i :: 0 <= i < |layout| ==> r[i] == sizes[PoolOf(layout[i])] / unit
  {
    seq(|layout|, i requires 0 <= i < |layout| => sizes[PoolOf(layout[i])] / unit)
  }

  function Sum(widths: seq<nat>): nat {
    if widths == [] then 0 else Sum(widths[..|widths| - 1]) + widths[|widths| - 1]
  }

  lemma {:induction false} SumPrefix(widths: seq<nat>, i: nat)
    requires i < |widths|
    ensures Sum(widths[..i]) + widths[i] == Sum(widths[..i + 1]) <= Sum(widths)
    decreases |widths| - i
  {
    assert widths[..i + 1][..i] == widths[..i];
    if i + 1 < |widths| {
      SumPrefix(widths, i + 1);
    } else {
      assert widths[..i + 1] == widths;
    }
  }

  /** `_piece_slots`: group a residency's slots by label, in layout order. */
  method PieceSlots(widths: seq<nat>, slots: seq<nat>) returns (pieces: seq<seq<nat>>)
    requires |slots| == Sum(widths)
    ensures |pieces| == |widths| && forall i :: IsPiece(widths, slots, pieces, i)
  {
    pieces := [];
    var offset := 0;
    for i := 0 to |widths|
      invariant |pieces| == i && offset == Sum(widths[..i])
      invariant forall j :: IsPiece(widths, slots, pieces, j)
    {
      SumPrefix(widths, i);
      var more := pieces + [slots[offset..offset + widths[i]]];
      forall j: nat ensures IsPiece(widths, slots, more, j) { assert IsPiece(widths, slots, pieces, j); }
      pieces := more;
      offset := offset + widths[i];
    }
  }

  ghost predicate IsPiece(widths: seq<nat>, slots: seq<nat>, pieces: seq<seq<nat>>, i: nat) {
    i < |pieces| && i < |widths| ==> Sum(widths[..i]) + widths[i] <= |slots| && pieces[i] == Piece(widths, slots, i)
  }

  function Piece<T>(widths: seq<nat>, items: seq<T>, i: nat): seq<T>
    requires i < |widths| && Sum(widths[..i]) + widths[i] <= |items|
  {
    items[Sum(widths[..i])..Sum(widths[..i]) + widths[i]]
  }

  /** All units of a block, label after label. */
  function Units(content: seq<seq<Byte>>, unit: nat): seq<seq<Byte>>
    requires unit > 0
  {
    if content == [] then [] else Units(content[..|content| - 1], unit) + Chunks(content[|content| - 1], unit)
  }

  ghost predicate Fits(content: seq<seq<Byte>>, widths: seq<nat>, unit: nat) {
    |content| == |widths| && forall i :: 0 <= i < |content| ==> |content[i]| == widths[i] * unit
  }

  lemma {:induction false} UnitsCount(content: seq<seq<Byte>>, widths: seq<nat>, unit: nat)
    requires unit > 0 && Fits(content, widths, unit)
    ensures |Units(content, unit)| == Sum(widths)
    decreases |content|
  {
    if content != [] {
      var last := |content| - 1;
      JoinChunks(content[last], unit, widths[last]);
      UnitsCount(content[..last], widths[..last], unit);
    }
  }

  lemma PieceOfPrefix<T>(widths: seq<nat>, items: seq<T>, more: seq<T>, i: nat)
    requires i < |widths| - 1 && |items| == Sum(widths[..|widths| - 1])
    ensures widths[..|widths| - 1][..i] == widths[..i] && Sum(widths[..i]) + widths[i] <= |items|
    ensures Piece(widths[..|widths| - 1], items, i) == Piece(widths, items + more, i)
  {
    var rest := widths[..|widths| - 1];
    SumPrefix(rest, i);
    assert rest[..i] == widths[..i] && rest[i] == widths[i];
  }

  lemma {:induction false} UnitsOfPiece(content: seq<seq<Byte>>, widths: seq<nat>, unit: nat, i: nat)
    requires unit > 0 && Fits(content, widths, unit) && i < |content|
    ensures |Units(content, unit)| == Sum(widths) && Sum(widths[..i]) + widths[i] <= Sum(widths)
    ensures Piece(widths, Units(content, unit), i) == Chunks(content[i], unit)
    decreases |content|
  {
    var last := |content| - 1;
    UnitsCount(content, widths, unit);
    SumPrefix(widths, i);
    UnitsCount(content[..last], widths[..last], unit);
    var units, chunks := Units(content[..last], unit), Chunks(content[last], unit);
    if i < last {
      UnitsOfPiece(content[..last], widths[..last], unit, i);
      PieceOfPrefix(widths, units, chunks, i);
    } else {
      JoinChunks(content[last], unit, widths[last]);
      assert (units + chunks)[|units|..] == chunks;
    }
  }

  // -- Transfers between memory and files.

  type Files = map<Place, seq<Byte>>

  function Put(files: Files, places: seq<Place>, chunks: seq<seq<Byte>>): Files
    requires |places| == |chunks|
  {
    if places == [] then files
    else Put(files, places[..|places| - 1], chunks[..|places| - 1])[places[|places| - 1] := chunks[|places| - 1]]
  }

  function Places(slots: seq<nat>, files: nat, unit: nat): (r: seq<Place>)
    requires files > 0
    ensures |r| == |slots| && forall i :: 0 <= i < |slots| ==> r[i] == Descriptor(slots[i], files, unit)
  {
    seq(|slots|, i requires 0 <= i < |slots| => Descriptor(slots[i], files, unit))
  }

  function Get(files: Files, places: seq<Place>): (r: seq<seq<Byte>>)
    ensures |r| == |places|
    ensures forall i :: 0 <= i < |places| ==> r[i] == (if places[i] in files then files[places[i]] else [])
  {
    seq(|places|, i requires 0 <= i < |places| => if places[i] in files then files[places[i]] else [])
  }

  lemma {:induction false} PutGet(files: Files, places: seq<Place>, chunks: seq<seq<Byte>>)
    requires |places| == |chunks| && Distinct(places)
    ensures forall i :: 0 <= i < |places| ==>
      places[i] in Put(files, places, chunks) && Put(files, places, chunks)[places[i]] == chunks[i]
    ensures forall p :: p !in places ==>
      (p in Put(files, places, chunks) <==> p in files) && (p in files ==> Put(files, places, chunks)[p] == files[p])
  {
    if places != [] {
      var last := |places| - 1;
      PutGet(files, places[..last], chunks[..last]);
      forall i | 0 <= i < last
        ensures places[i] in Put(files, places, chunks) && Put(files, places, chunks)[places[i]] == chunks[i]
      {
        assert places[..last][i] == places[i];
      }
      assert places[last] in places;
      assert forall p :: p !in places ==> p !in places[..last];
    }
  }

  lemma PlacesDistinct(slots: seq<nat>, files: nat, perFile: nat, unit: nat)
    requires files > 0 && unit > 0 && Distinct(slots) && forall i :: 0 <= i < |slots| ==> slots[i] < files * perFile
    ensures Distinct(Places(slots, files, unit))
  {
    forall i, j | 0 <= i < j < |slots| ensures Descriptor(slots[i], files, unit) != Descriptor(slots[j], files, unit) {
      OtherPlace(slots[i], slots[j], files, perFile, unit);
    }
  }

  /** A block's memory, label by label: as many bytes as the label's pool has per block. */
  ghost predicate IsContent(content: seq<seq<Byte>>, layout: seq<Label>, sizes: map<string, nat>, unit: nat) {
    && unit > 0 && |content| == |layout|
    && forall i :: 0 <= i < |layout| ==>
        PoolOf(layout[i]) in sizes && sizes[PoolOf(layout[i])] % unit == 0 && |content[i]| == sizes[PoolOf(layout[i])]
  }

  lemma ContentFits(content: seq<seq<Byte>>, layout: seq<Label>, sizes: map<string, nat>, unit: nat)
    requires IsContent(content, layout, sizes, unit)
    ensures Fits(content, Widths(layout, sizes, unit), unit)
  {
    forall i | 0 <= i < |content| ensures |content[i]| == Widths(layout, sizes, unit)[i] * unit {
      assert sizes[PoolOf(layout[i])] == sizes[PoolOf(layout[i])] / unit * unit;
    }
  }

  /** Reading the slots of an accepted selection of a block's labels, in any accepted order, from
      files that hold the block's units in its slots: each label gets exactly its own bytes. */
  lemma ContentReadsBack(store: Files, layout: seq<Label>, sizes: map<string, nat>, slots: seq<nat>,
                         content: seq<seq<Byte>>,
                         files: nat, unit: nat, requested: seq<Label>, indices: seq<nat>, k: nat)
    requires files > 0 && IsContent(content, layout, sizes, unit) && |slots| == Sum(Widths(layout, sizes, unit))
    requires Get(store, Places(slots, files, unit)) == Units(content, unit)
    requires LayoutIndices(layout, requested) == Some(indices) && k < |requested|
    ensures k < |indices| && indices[k] < |layout| && layout[indices[k]] == requested[k]
    ensures var widths := Widths(layout, sizes, unit);
      && Sum(widths[..indices[k]]) + widths[indices[k]] <= |slots|
      && Join(Get(store, Places(Piece(widths, slots, indices[k]), files, unit))) == content[indices[k]]
  {
    IndicesSelect(layout, requested);
    var i, widths := indices[k], Widths(layout, sizes, unit);
    ContentFits(content, layout, sizes, unit);
    UnitsOfPiece(content, widths, unit, i);
    GetPiece(store, slots, Units(content, unit), widths, files, unit, i);
    JoinChunks(content[i], unit, widths[i]);
  }

  /** ... which is what the files hold once the block has been stored. */
  lemma StoredUnits(store: Files, layout: seq<Label>, sizes: map<string, nat>, slots: seq<nat>, content: seq<seq<Byte>>,
                    files: nat, perFile: nat, unit: nat)
    requires files > 0 && IsContent(content, layout, sizes, unit) && |slots| == Sum(Widths(layout, sizes, unit))
    requires Distinct(slots) && forall i :: 0 <= i < |slots| ==> slots[i] < files * perFile
    ensures |Units(content, unit)| == |slots|
    ensures Get(Put(store, Places(slots, files, unit), Units(content, unit)), Places(slots, files, unit))
      == Units(content, unit)
  {
    ContentFits(content, layout, sizes, unit);
    UnitsCount(content, Widths(layout, sizes, unit), unit);
    PlacesDistinct(slots, files, perFile, unit);
    PutGet(store, Places(slots, files, unit), Units(content, unit));
  }

  lemma GetPiece(store: Files, slots: seq<nat>, units: seq<seq<Byte>>, widths: seq<nat>, files: nat, unit: nat, i: nat)
    requires files > 0 && |slots| == |units| && Get(store, Places(slots, files, unit)) == units
    requires i < |widths| && Sum(widths[..i]) + widths[i] <= |slots|
    ensures Get(store, Places(Piece(widths, slots, i), files, unit)) == Piece(widths, units, i)
  {
    var places, mine := Places(slots, files, unit), Places(Piece(widths, slots, i), files, unit);
    var start := Sum(widths[..i]);
    forall j | 0 <= j < widths[i] ensures mine[j] == places[start + j] && Get(store, mine)[j] == units[start + j] { }
  }

  /** Two slots of the store are two places. */
  lemma OtherPlace(a: nat, b: nat, files: nat, perFile: nat, unit: nat)
    requires files > 0 && unit > 0 && a != b && a < files * perFile && b < files * perFile
    ensures Descriptor(a, files, unit) != Descriptor(b, files, unit)
  {
    if a < b {
      SlotsDoNotOverlap(a, b, files, perFile, unit);
    } else {
      SlotsDoNotOverlap(b, a, files, perFile, unit);
    }
  }
}
