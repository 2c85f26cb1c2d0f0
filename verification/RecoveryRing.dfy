/**
 The recovery journal: a one-producer, one-consumer byte ring in shared memory. Each side
 holds its own handle, caches the cursor it advances and loads the other's.
 */
module RecoveryRing {
  import opened Prelude
  import opened Frames

  /** The `n` bytes that start at cursor `from`, read around the end of the ring. */
  function Window(mem: seq<Byte>, from: nat, n: nat): (r: seq<Byte>)
    requires |mem| > 0
    ensures |r| == n
  {
    seq(n, k requires 0 <= k < n => mem[(from + k) % |mem|])
  }

  /** `_read_ring`: one slice up to the end and one from the start. */
  function ReadRing(mem: seq<Byte>, position: nat, length: nat): (r: seq<Byte>)
    requires position < |mem| && length <= |mem|
  {
    var first := if length <= |mem| - position then length else |mem| - position;
    mem[position..position + first] + mem[..length - first]
  }

  lemma WrapIndex(from: nat, k: nat, cap: nat)
    requires cap > 0 && k < cap
    ensures (from + k) % cap == if from % cap + k < cap then from % cap + k else from % cap + k - cap
  {
    var q, r := from / cap, from % cap;
    assert from == q * cap + r;
    if r + k < cap {
      assert from + k == q * cap + (r + k);
    } else {
      assert from + k == (q + 1) * cap + (r + k - cap);
    }
    ModIs(from + k, if r + k < cap then q else q + 1, if r + k < cap then r + k else r + k - cap, cap);
  }

  lemma ModIs(x: nat, q: nat, r: nat, cap: nat)
    requires r < cap && x == q * cap + r
    ensures x % cap == r
  {
    var d, m := x / cap, x % cap;
    assert (d - q) * cap == r - m;
    assert d - q >= 1 ==> (d - q) * cap >= cap;
    assert d - q <= -1 ==> (d - q) * cap + cap <= 0;
  }

  /** Reading around the end of the ring yields the window at the cursor. */
  lemma ReadRingIsWindow(mem: seq<Byte>, from: nat, n: nat)
    requires 0 < |mem| && n <= |mem|
    ensures ReadRing(mem, from % |mem|, n) == Window(mem, from, n)
  {
    forall k | 0 <= k < n
      ensures ReadRing(mem, from % |mem|, n)[k] == Window(mem, from, n)[k]
    {
      WrapIndex(from, k, |mem|);
    }
  }

  /** Two cursors less than a lap apart never meet in the ring. */
  lemma DistinctSlots(a: nat, b: nat, cap: nat)
    requires cap > 0 && a < b < a + cap
    ensures a % cap != b % cap
  {
    WrapIndex(a, b - a, cap);
  }

  /** How far behind `position`, going forwards around the ring, slot `j` lies. */
  function Offset(position: nat, j: nat, cap: nat): nat
    requires position < cap && j < cap
  {
    if position <= j then j - position else j + cap - position
  }

  /** The ring after `_write_ring` put `data` at `position`. */
  function WriteRing(mem: seq<Byte>, position: nat, data: seq<Byte>): (r: seq<Byte>)
    requires position < |mem| && |data| <= |mem|
    ensures |r| == |mem|
  {
    seq(|mem|, j requires 0 <= j < |mem| =>
      if Offset(position, j, |mem|) < |data| then data[Offset(position, j, |mem|)] else mem[j])
  }

  lemma CursorOffset(consumed: nat, published: nat, k: nat, cap: nat)
    requires cap > 0 && consumed <= published < consumed + cap && k < cap
    ensures Offset(published % cap, (consumed + k) % cap, cap)
            == if published - consumed <= k then k - (published - consumed) else k + cap - (published - consumed)
  {
    WrapIndex(consumed, k, cap);
    WrapIndex(consumed, published - consumed, cap);
  }

  /** Writing into the free part extends what is published and disturbs none of it. */
  lemma WriteExtendsWindow(mem: seq<Byte>, consumed: nat, published: nat, data: seq<Byte>)
    requires |mem| > 0 && consumed <= published && 0 < |data| <= |mem| - (published - consumed)
    ensures Window(WriteRing(mem, published % |mem|, data), consumed, published - consumed + |data|)
            == Window(mem, consumed, published - consumed) + data
  {
    var d := published - consumed;
    forall k | 0 <= k < d + |data|
      ensures Window(WriteRing(mem, published % |mem|, data), consumed, d + |data|)[k]
        == (Window(mem, consumed, d) + data)[k]
    {
      CursorOffset(consumed, published, k, |mem|);
    }
  }

  lemma WindowDrop(mem: seq<Byte>, from: nat, n: nat, m: nat)
    requires |mem| > 0 && m <= n
    ensures Window(mem, from, n)[m..] == Window(mem, from + m, n - m)
    ensures Window(mem, from, n)[..m] == Window(mem, from, m)
  {
    forall k | 0 <= k < n - m
      ensures Window(mem, from, n)[m..][k] == Window(mem, from + m, n - m)[k]
    {
      assert from + (m + k) == (from + m) + k;
    }
  }

  predicate CleanPadding(bytes: seq<Byte>, from: nat) {
    forall k :: from <= k < |bytes| ==> bytes[k] == 0
  }

  /** A packed frame passes every check a reader makes and yields the frame. */
  lemma PackedFrameReads(f: Frame)
    requires Fits(f)
    ensures
      var bytes := Pack(f, Stored(FrameSize(f)));
      var h := Unpack(bytes[..HEADER_SIZE]);
      h.frameSize == FrameSize(f) && CheckHeader(h).None? && Body(bytes, h) == f && CleanPadding(bytes, h.frameSize)
  {
    var bytes := Pack(f, Stored(FrameSize(f)));
    UnpackPack(f, |bytes|, []);
    assert bytes + [] == bytes;
    assert Unpack(bytes[..HEADER_SIZE]) == Unpack(bytes);
  }

  /** What lies at the read cursor is the oldest frame, and behind it lie the rest. */
  lemma OldestFrame(mem: seq<Byte>, consumed: nat, n: nat, queue: seq<Frame>)
    requires 0 < |mem| && n <= |mem| && queue != [] && forall f :: f in queue ==> Fits(f)
    requires Window(mem, consumed, n) == EncodeAll(queue)
    ensures HEADER_SIZE <= Stored(FrameSize(queue[0])) <= n
    ensures
      var bytes := Pack(queue[0], Stored(FrameSize(queue[0])));
      && ReadRing(mem, consumed % |mem|, HEADER_SIZE) == bytes[..HEADER_SIZE]
      && ReadRing(mem, consumed % |mem|, |bytes|) == bytes
      && Window(mem, consumed + |bytes|, n - |bytes|) == EncodeAll(queue[1..])
  {
    var bytes := Pack(queue[0], Stored(FrameSize(queue[0])));
    EncodeAligned(queue);
    WindowDrop(mem, consumed, n, HEADER_SIZE);
    WindowDrop(mem, consumed, n, |bytes|);
    ReadRingIsWindow(mem, consumed, HEADER_SIZE);
    ReadRingIsWindow(mem, consumed, |bytes|);
    assert EncodeAll(queue)[..HEADER_SIZE] == bytes[..HEADER_SIZE];
  }

  /** The mapped pages: what both processes see. `queue` is what the bytes stand for. */
  class SharedRing {
    const mem: array<Byte>
    var published: nat
    var consumed: nat
    var invalid: bool
    ghost var queue: seq<Frame>

    ghost predicate Valid()
      reads this, mem
    {
      && mem.Length > 0
      && published % ALIGNMENT == 0 && consumed % ALIGNMENT == 0
      && consumed <= published <= consumed + mem.Length
      && (forall f :: f in queue ==> Fits(f))
      && Window(mem[..], consumed, published - consumed) == EncodeAll(queue)
    }

    constructor (capacity: nat)
      requires capacity > 0
      ensures Valid() && fresh(mem) && mem.Length == capacity && queue == [] && !invalid
    {
      mem := new Byte[capacity](_ => 0);
      published, consumed, invalid := 0, 0, false;
      queue := [];
    }

    method Write(position: nat, data: seq<Byte>)
      requires position < mem.Length && |data| <= mem.Length
      modifies mem
      ensures mem[..] == WriteRing(old(mem[..]), position, data)
    {
      var first := if |data| <= mem.Length - position then |data| else mem.Length - position;
      forall k | 0 <= k < first {
        mem[position + k] := data[k];
      }
      forall k | 0 <= k < |data| - first {
        mem[k] := data[first + k];
      }
    }

    method Read(position: nat, length: nat) returns (data: seq<Byte>)
      requires position < mem.Length && length <= mem.Length
      ensures data == ReadRing(mem[..], position, length)
    {
      var first := if length <= mem.Length - position then length else mem.Length - position;
      data := mem[position..position + first];
      if first < length {
        data := data + mem[..length - first];
      }
    }
  }

  datatype PublishResult = Published | Rejected | UnknownRecordType
  datatype ReadResult = Caught | Got(frame: Frame) | Failed

  predicate ValidCursors(published: nat, consumed: nat, capacity: nat) {
    published % ALIGNMENT == 0 && consumed % ALIGNMENT == 0 && consumed <= published <= consumed + capacity
  }

  /** One side's handle on the ring. */
  class RecoveryJournal {
    const ring: SharedRing
    var publishedLocal: Option<nat>
    var consumedLocal: Option<nat>
    var invalidLocal: bool

    ghost predicate Valid()
      reads this, ring, ring.mem
    {
      ring.Valid() && (invalidLocal ==> ring.invalid)
    }

    /** This handle is the only producer, resp. consumer, since it cached its cursor. */
    ghost predicate Producing()
      reads this, ring, ring.mem
    {
      Valid() && (publishedLocal.Some? ==> publishedLocal.value == ring.published)
    }

    ghost predicate Consuming()
      reads this, ring, ring.mem
    {
      Valid() && (consumedLocal.Some? ==> consumedLocal.value == ring.consumed)
    }

    constructor (ring: SharedRing)
      requires ring.Valid()
      ensures this.ring == ring && Producing() && Consuming() && !invalidLocal && publishedLocal.None?
      ensures consumedLocal.None?
    {
      this.ring := ring;
      publishedLocal, consumedLocal, invalidLocal := None, None, false;
    }

    /** Reset while no producer or consumer is using the pool. */
    method Reset()
      requires ring.mem.Length > 0
      modifies this, ring
      ensures Producing() && Consuming() && ring.queue == [] && !ring.invalid && !invalidLocal
    {
      ring.consumed, ring.published, ring.invalid := 0, 0, false;
      ring.queue := [];
      publishedLocal, consumedLocal, invalidLocal := Some(0), Some(0), false;
    }

    method Invalidate()
      requires Valid()
      modifies this`invalidLocal, ring`invalid
      ensures Valid() && invalidLocal && ring.invalid
    {
      invalidLocal := true;
      ring.invalid := true;
    }

    /** A frame is queued exactly when the journal is still good for this handle and the
        frame fits the ring's free bytes; otherwise recovery is given up for good. */
    method Publish(f: Frame) returns (r: PublishResult)
      requires Producing()
      modifies this, ring, ring.mem
      ensures Producing() && ring.consumed == old(ring.consumed) && consumedLocal == old(consumedLocal)
      ensures r.UnknownRecordType? <==> f.recordType != RECORD_BLOCK
      ensures r.UnknownRecordType? ==> ring.invalid == old(ring.invalid) && invalidLocal == old(invalidLocal)
      ensures r.Published? <==>
        && Fits(f) && !old(invalidLocal) && (old(publishedLocal).None? ==> !old(ring.invalid))
        && Stored(FrameSize(f)) <= ring.mem.Length - (old(ring.published) - ring.consumed)
      ensures r.Published? ==> ring.queue == old(ring.queue) + [f] && ring.invalid == old(ring.invalid)
      ensures !r.Published? ==> ring.queue == old(ring.queue) && ring.published == old(ring.published)
      ensures r.Rejected? ==> ring.invalid
    {
      if f.recordType != RECORD_BLOCK {
        return UnknownRecordType;
      }
      if invalidLocal {
        return Rejected;
      }
      if FrameSize(f) > MAX_FRAME_SIZE {
        Invalidate();
        return Rejected;
      }
      var storedSize := Stored(FrameSize(f));
      var published := ring.published;
      if publishedLocal.Some? {
        published := publishedLocal.value;
      } else if ring.invalid {
        invalidLocal := true;
        return Rejected;
      }
      var consumed := ring.consumed;
      if !ValidCursors(published, consumed, ring.mem.Length) || storedSize > ring.mem.Length - (published - consumed) {
        Invalidate();
        return Rejected;
      }
      var bytes := Pack(f, storedSize);
      ghost var before := ring.mem[..];
      ring.Write(published % ring.mem.Length, bytes);
      WriteExtendsWindow(before, consumed, published, bytes);
      EncodeAppend(ring.queue, f);
      AlignedSum(published, storedSize);
      publishedLocal := Some(published + storedSize);
      ring.published := published + storedSize;
      ring.queue := ring.queue + [f];
      r := Published;
    }

    /** The oldest frame, unaltered. On published data no frame is ever malformed: a read
        fails only because the producer gave the journal up. */
    method ReadNext() returns (r: ReadResult)
      requires Consuming()
      modifies this, ring
      ensures Consuming() && ring.published == old(ring.published) && publishedLocal == old(publishedLocal)
      ensures ring.invalid == old(ring.invalid)
      ensures r.Failed? <==>
        old(invalidLocal) || (old(ring.invalid) && (old(consumedLocal).None? || old(ring.queue) == []))
      ensures r.Got? ==> old(ring.queue) != [] && r.frame == old(ring.queue)[0] && ring.queue == old(ring.queue)[1..]
      ensures r.Caught? ==> old(ring.queue) == [] && !ring.invalid
      ensures !r.Got? ==> ring.queue == old(ring.queue)
      ensures r.Got? ==> !invalidLocal && consumedLocal.Some?
      ensures r.Caught? ==> !invalidLocal
    {
      if invalidLocal {
        return Failed;
      }
      if consumedLocal.None? {
        if ring.invalid {
          invalidLocal := true;
          return Failed;
        }
        consumedLocal := Some(ring.consumed);
      }
      var consumed := consumedLocal.value;
      var published := ring.published;
      EncodeAligned(ring.queue);
      if !ValidCursors(published, consumed, ring.mem.Length) {
        assert false;
      }
      if published == consumed {
        if ring.invalid {
          invalidLocal := true;
          return Failed;
        }
        return Caught;
      }
      var frame, storedSize := ReadOldest(consumed, published);
      Advance(consumed, storedSize);
      r := Got(frame);
    }

    /** The reading path of `read_next`: the checks a published frame can never fail. */
    method ReadOldest(consumed: nat, published: nat) returns (frame: Frame, storedSize: nat)
      requires ring.Valid() && consumed == ring.consumed && published == ring.published && ring.queue != []
      ensures frame == ring.queue[0] && storedSize == Stored(FrameSize(frame))
    {
      var position := consumed % ring.mem.Length;
      OldestFrame(ring.mem[..], consumed, published - consumed, ring.queue);
      PackedFrameReads(ring.queue[0]);
      var head := ring.Read(position, HEADER_SIZE);
      var h := Unpack(head);
      if CheckHeader(h).Some? {
        assert false;
      }
      storedSize := Stored(h.frameSize);
      if storedSize > ring.mem.Length || storedSize > published - consumed {
        assert false;
      }
      var bytes := ring.Read(position, storedSize);
      if !CleanPadding(bytes, h.frameSize) {
        assert false;
      }
      frame := Body(bytes, h);
    }

    method Advance(consumed: nat, storedSize: nat)
      requires Consuming() && ring.queue != [] && consumed == ring.consumed
      requires storedSize == Stored(FrameSize(ring.queue[0]))
      modifies this`consumedLocal, ring`consumed, ring`queue
      ensures Consuming() && consumedLocal.Some? && ring.queue == old(ring.queue)[1..]
    {
      OldestFrame(ring.mem[..], consumed, ring.published - consumed, ring.queue);
      AlignedSum(consumed, storedSize);
      consumedLocal := Some(consumed + storedSize);
      ring.consumed := consumed + storedSize;
      ring.queue := ring.queue[1..];
    }

    /** Every frame the producer left behind. Without an error nothing is missing. */
    method Drain() returns (frames: seq<Frame>, failed: bool)
      requires Consuming()
      modifies this, ring
      ensures Consuming() && old(ring.queue) == frames + ring.queue
      ensures failed <==> old(invalidLocal) || ring.invalid
      ensures !failed ==> frames == old(ring.queue)
      ensures ring.invalid == old(ring.invalid)
    {
      frames, failed := [], false;
      while true
        invariant Consuming() && old(ring.queue) == frames + ring.queue && ring.invalid == old(ring.invalid)
        invariant invalidLocal ==> old(invalidLocal)
        decreases |ring.queue|
      {
        var r := ReadNext();
        if !r.Got? {
          failed := r.Failed?;
          return;
        }
        frames := frames + [r.frame];
      }
    }
  }
}
