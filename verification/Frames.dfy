/** Journal frames as bytes: a little-endian header, a key, a payload and zero padding. */
module Frames {
  import opened Prelude

  type Byte = x: int | 0 <= x < 256

  const HEADER_SIZE := 6
  const ALIGNMENT := 8
  const MAX_FRAME_SIZE := 65535
  const RECORD_BLOCK := 1

  datatype Frame = Frame(recordType: nat, key: seq<Byte>, payload: seq<Byte>)

  function FrameSize(f: Frame): nat { HEADER_SIZE + |f.key| + |f.payload| }

  /** A frame size rounded up to the ring's alignment. */
  function Stored(size: nat): (r: nat)
    ensures r % ALIGNMENT == 0 && size <= r < size + ALIGNMENT
  {
    size + (ALIGNMENT - size % ALIGNMENT) % ALIGNMENT
  }

  predicate Fits(f: Frame) { FrameSize(f) <= MAX_FRAME_SIZE && f.recordType == RECORD_BLOCK }

  function U16(n: nat): seq<Byte>
    requires n < 65536
  {
    [n % 256, n / 256]
  }

  function Zeros(n: nat): (r: seq<Byte>)
    ensures |r| == n && forall k :: 0 <= k < n ==> r[k] == 0
  {
    seq(n, _ => 0)
  }

  /** `_pack_frame`: one typed keyed frame, zero-padded out to `size`. */
  function Pack(f: Frame, size: nat): (r: seq<Byte>)
    requires Fits(f) && FrameSize(f) <= size
    ensures |r| == size
  {
    U16(FrameSize(f)) + U16(f.recordType) + U16(|f.key|) + f.key + f.payload + Zeros(size - FrameSize(f))
  }

  datatype Header = Header(frameSize: nat, recordType: nat, keySize: nat)

  function ReadU16(data: seq<Byte>, at: nat): nat
    requires at + 2 <= |data|
  {
    data[at] as int + 256 * (data[at + 1] as int)
  }

  function Unpack(data: seq<Byte>): Header
    requires HEADER_SIZE <= |data|
  {
    Header(ReadU16(data, 0), ReadU16(data, 2), ReadU16(data, 4))
  }

  datatype FrameError = BadKeySize | UnknownType | ExceedsPublished | DirtyPadding | Truncated

  function CheckHeader(h: Header): Option<FrameError> {
    if h.frameSize < HEADER_SIZE + h.keySize then Some(BadKeySize)
    else if h.recordType != RECORD_BLOCK then Some(UnknownType)
    else None
  }

  /** The frame a well-formed header and the bytes behind it stand for. */
  function Body(data: seq<Byte>, h: Header): (f: Frame)
    requires CheckHeader(h).None? && h.frameSize <= |data|
  {
    Frame(h.recordType, data[HEADER_SIZE..HEADER_SIZE + h.keySize], data[HEADER_SIZE + h.keySize..h.frameSize])
  }

  /** A packed frame reads back as itself, whatever follows it. */
  lemma UnpackPack(f: Frame, size: nat, rest: seq<Byte>)
    requires Fits(f) && FrameSize(f) <= size
    ensures Unpack(Pack(f, size) + rest) == Header(FrameSize(f), f.recordType, |f.key|)
    ensures CheckHeader(Unpack(Pack(f, size) + rest)).None?
    ensures Body(Pack(f, size) + rest, Unpack(Pack(f, size) + rest)) == f
    ensures forall k :: FrameSize(f) <= k < size ==> (Pack(f, size) + rest)[k] == 0
  {
    var data := Pack(f, size) + rest;
    var head := U16(FrameSize(f)) + U16(f.recordType) + U16(|f.key|);
    assert data == head + (f.key + f.payload + Zeros(size - FrameSize(f)) + rest);
    assert data[0] == U16(FrameSize(f))[0] && data[1] == U16(FrameSize(f))[1];
    assert data[2] == U16(f.recordType)[0] && data[3] == U16(f.recordType)[1];
    assert data[4] == U16(|f.key|)[0] && data[5] == U16(|f.key|)[1];
    assert data[HEADER_SIZE..HEADER_SIZE + |f.key|] == f.key;
    assert data[HEADER_SIZE + |f.key|..FrameSize(f)] == f.payload;
  }

  /** The bytes of a queue of frames, oldest first. */
  function EncodeAll(q: seq<Frame>): seq<Byte>
    requires forall f :: f in q ==> Fits(f)
  {
    if q == [] then [] else Pack(q[0], Stored(FrameSize(q[0]))) + EncodeAll(q[1..])
  }

  lemma {:induction false} EncodeAppend(q: seq<Frame>, f: Frame)
    requires Fits(f) && forall g :: g in q ==> Fits(g)
    ensures EncodeAll(q + [f]) == EncodeAll(q) + Pack(f, Stored(FrameSize(f)))
  {
    if q == [] {
      assert (q + [f])[1..] == [];
      assert EncodeAll(q + [f]) == Pack(f, Stored(FrameSize(f))) + [];
    } else {
      assert (q + [f])[1..] == q[1..] + [f];
      EncodeAppend(q[1..], f);
    }
  }

  lemma {:induction false} EncodeAligned(q: seq<Frame>)
    requires forall f :: f in q ==> Fits(f)
    ensures |EncodeAll(q)| % ALIGNMENT == 0
    ensures q != [] ==> |EncodeAll(q)| >= Stored(FrameSize(q[0])) >= ALIGNMENT
    ensures q == [] <==> |EncodeAll(q)| == 0
  {
    if q != [] {
      EncodeAligned(q[1..]);
      AlignedSum(Stored(FrameSize(q[0])), |EncodeAll(q[1..])|);
    }
  }

  lemma AlignedSum(a: nat, b: nat)
    requires a % ALIGNMENT == 0 && b % ALIGNMENT == 0
    ensures (a + b) % ALIGNMENT == 0
  {}
}
