/**
 Block records as byte frames, and the mirror that decodes them. The payload encoding appears by
 its contract: decoding undoes encoding.
 */
module Mirroring {
  import opened Prelude
  import opened RecoveryRecords
  import opened Frames

  datatype Codec = Codec(
    encodeKey: BlockKey -> seq<Byte>, decodeKey: seq<Byte> -> BlockKey,
    encode: Rec -> seq<Byte>, decode: seq<Byte> -> Option<Rec>)

  ghost predicate Faithful(c: Codec) {
    && (forall k :: c.decodeKey(c.encodeKey(k)) == k)
    && (forall p :: c.decode(c.encode(p)) == Some(p))
  }

  /** The frame that publishes a change. */
  function Wire(c: Codec, change: Change): Frame { Frame(RECORD_BLOCK, c.encodeKey(change.0), c.encode(change.1)) }

  function WireAll(c: Codec, changes: seq<Change>): seq<Frame> {
    seq(|changes|, i requires 0 <= i < |changes| => Wire(c, changes[i]))
  }

  /** The mirror takes frames one by one; an unknown type or payload is an error. */
  function Take(c: Codec, mirror: Option<Table>, f: Frame): Option<Table> {
    match (mirror, c.decode(f.payload))
    case (Some(m), Some(p)) => if f.recordType == RECORD_BLOCK then Some(Play(m, (c.decodeKey(f.key), p))) else None
    case _ => None
  }

  function Mirrored(c: Codec, baseline: Table, frames: seq<Frame>): Option<Table> {
    if frames == [] then Some(baseline)
    else Take(c, Mirrored(c, baseline, frames[..|frames| - 1]), frames[|frames| - 1])
  }

  lemma {:induction false} MirroredIsReplay(c: Codec, baseline: Table, changes: seq<Change>)
    requires Faithful(c)
    ensures Mirrored(c, baseline, WireAll(c, changes)) == Some(Replay(baseline, changes))
  {
    if changes != [] {
      var last := |changes| - 1;
      MirroredIsReplay(c, baseline, changes[..last]);
      assert WireAll(c, changes)[..last] == WireAll(c, changes[..last]);
      assert c.decodeKey(c.encodeKey(changes[last].0)) == changes[last].0;
    }
  }

  lemma TakenIsMirrored(c: Codec, baseline: Table, frames: seq<Frame>, f: Frame)
    ensures Mirrored(c, baseline, frames + [f]) == Take(c, Mirrored(c, baseline, frames), f)
  {
    assert (frames + [f])[..|frames|] == frames;
  }

  lemma WireAppend(c: Codec, changes: seq<Change>, change: Change)
    ensures WireAll(c, changes + [change]) == WireAll(c, changes) + [Wire(c, change)]
  {
  }

  ghost predicate AllNamed(table: Table) { forall k :: k in table ==> Names(table[k]) }

  /** A mirror holds no record that names nothing. */
  lemma {:induction false} MirroredNamed(c: Codec, frames: seq<Frame>)
    ensures var m := Mirrored(c, map[], frames); m.Some? ==> AllNamed(m.value)
  {
    if frames != [] {
      MirroredNamed(c, frames[..|frames| - 1]);
    }
  }
}
