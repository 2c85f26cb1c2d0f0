/**
 The journal ring under every interleaving: the producer stores a frame byte by byte
 between loading the consumer's cursor and releasing its own, while the consumer copies
 byte by byte between loading the producer's cursor and releasing its own. Either side
 may be overtaken at any byte, and the producer may die at any byte.
 */
module RingInterleaving {
  import opened Prelude
  import opened Frames
  import opened RecoveryRing

  datatype Producer = Idle | Filling(frame: Frame, written: nat) | Disabled | Gone
  datatype Consumer = Resting | Copying(limit: nat, got: seq<Byte>) | Broken

  /** Histories: whether publish ever returned False, the frames it returned True for, and
      the frames read. */
  datatype State = State(
    mem: seq<Byte>, published: nat, consumed: nat, invalid: bool, rejected: bool,
    producer: Producer, consumer: Consumer,
    accepted: seq<Frame>, delivered: seq<Frame>)

  datatype Step =
    | BeginPublish(frame: Frame)
    | StoreByte
    | ReleasePublished
    | ProducerDies
    | BeginRead
    | CopyByte
    | JudgeFrame

  function Size(f: Frame): nat { Stored(FrameSize(f)) }

  /** How many bytes the consumer needs, as far as the bytes it has tell. */
  function Needed(got: seq<Byte>): nat {
    if |got| < HEADER_SIZE then HEADER_SIZE else Stored(Unpack(got).frameSize)
  }

  /** `read_next`'s complaints about what it copied, or about the length it would copy. */
  predicate Malformed(s: State)
    requires s.consumer.Copying? && s.consumed <= s.consumer.limit
  {
    var got := s.consumer.got;
    |got| >= HEADER_SIZE &&
    (|| CheckHeader(Unpack(got)).Some?
     || Needed(got) > s.consumer.limit - s.consumed
     || Needed(got) > |s.mem|
     || (|got| >= Needed(got) && !CleanPadding(got, Unpack(got).frameSize)))
  }

  predicate Enabled(s: State, step: Step) {
    |s.mem| > 0 &&
    match step
    case BeginPublish(_) => s.producer.Idle?
    case StoreByte => s.producer.Filling? && Fits(s.producer.frame) && s.producer.written < Size(s.producer.frame)
    case ReleasePublished => s.producer.Filling? && s.producer.written == Size(s.producer.frame)
    case ProducerDies => !s.producer.Gone?
    case BeginRead => s.consumer.Resting? && s.consumed < s.published
    case CopyByte => s.consumer.Copying? && |s.consumer.got| < Needed(s.consumer.got)
    case JudgeFrame => s.consumer.Copying? && s.consumed <= s.consumer.limit
                       && (Malformed(s)
                           || (|s.consumer.got| >= HEADER_SIZE && |s.consumer.got| >= Needed(s.consumer.got)))
  }

  function Apply(s: State, step: Step): State
    requires Enabled(s, step)
  {
    match step
    case BeginPublish(f) =>
      // An unknown record type is the caller's error and changes nothing.
      if f.recordType != RECORD_BLOCK then s
      else if Fits(f) && Size(f) <= |s.mem| - (s.published - s.consumed)
      then s.(producer := Filling(f, 0))
      else s.(producer := Disabled, invalid := true, rejected := true)
    case StoreByte =>
      var k := s.producer.written;
      s.(mem := s.mem[(s.published + k) % |s.mem| := Pack(s.producer.frame, Size(s.producer.frame))[k]],
         producer := s.producer.(written := k + 1))
    case ReleasePublished =>
      s.(published := s.published + s.producer.written, accepted := s.accepted + [s.producer.frame], producer := Idle)
    case ProducerDies => s.(producer := Gone)
    case BeginRead => s.(consumer := Copying(s.published, []))
    case CopyByte =>
      var got := s.consumer.got;
      s.(consumer := s.consumer.(got := got + [s.mem[(s.consumed + |got|) % |s.mem|]]))
    case JudgeFrame =>
      if Malformed(s) then s.(consumer := Broken, invalid := true)
      else
        var got := s.consumer.got;
        s.(consumer := Resting, consumed := s.consumed + |got|, delivered := s.delivered + [Body(got, Unpack(got))])
  }

  function Initial(mem: seq<Byte>): State {
    State(mem, 0, 0, false, false, Idle, Resting, [], [])
  }

  /** What the ring still owes the reader: the abstract FIFO queue. */
  function Queue(s: State): seq<Frame> {
    if |s.delivered| <= |s.accepted| then s.accepted[|s.delivered|..] else []
  }

  ghost predicate RingInv(s: State) {
    && 0 < |s.mem|
    && s.consumed <= s.published <= s.consumed + |s.mem|
    && s.delivered <= s.accepted
    && (forall f :: f in s.accepted ==> Fits(f))
    && Window(s.mem, s.consumed, s.published - s.consumed) == EncodeAll(Queue(s))
    && (s.rejected ==> s.invalid)
  }

  ghost predicate ProducerInv(s: State)
    requires 0 < |s.mem|
  {
    s.producer.Filling? ==>
      var f, k := s.producer.frame, s.producer.written;
      && Fits(f) && k <= Size(f)
      && s.published + Size(f) <= s.consumed + |s.mem|
      && Window(s.mem, s.published, k) == Pack(f, Size(f))[..k]
  }

  ghost predicate ConsumerInv(s: State) {
    && !s.consumer.Broken?
    && (s.consumer.Copying? ==>
          && Queue(s) != [] && Fits(Queue(s)[0])
          && var f, got := Queue(s)[0], s.consumer.got;
             && s.consumed + Size(f) <= s.consumer.limit <= s.published
             && |got| <= Size(f)
             && got == Pack(f, Size(f))[..|got|])
  }

  ghost predicate Inv(s: State) { RingInv(s) && ProducerInv(s) && ConsumerInv(s) }

  // ------------------------------------------------------------- every step

  /** A byte stored at or past the published cursor, less than a lap ahead of the reader,
      changes no window that ends before it. */
  lemma StoreOutside(mem: seq<Byte>, from: nat, n: nat, at: nat, b: Byte)
    requires 0 < |mem| && from + n <= at < from + |mem|
    ensures Window(mem[at % |mem| := b], from, n) == Window(mem, from, n)
  {
    forall k | 0 <= k < n
      ensures Window(mem[at % |mem| := b], from, n)[k] == Window(mem, from, n)[k]
    {
      DistinctSlots(from + k, at, |mem|);
    }
  }

  lemma StoreExtends(mem: seq<Byte>, from: nat, n: nat, b: Byte)
    requires 0 < |mem| && n < |mem|
    ensures Window(mem[(from + n) % |mem| := b], from, n + 1) == Window(mem, from, n) + [b]
  {
    StoreOutside(mem, from, n, from + n, b);
    var mem' := mem[(from + n) % |mem| := b];
    assert Window(mem', from, n + 1) == Window(mem', from, n) + [b];
  }

  lemma StoreRing(s: State)
    requires Inv(s) && Enabled(s, StoreByte)
    ensures RingInv(Apply(s, StoreByte)) && Queue(Apply(s, StoreByte)) == Queue(s)
  {
    var f, k := s.producer.frame, s.producer.written;
    StoreOutside(s.mem, s.consumed, s.published - s.consumed, s.published + k, Pack(f, Size(f))[k]);
  }

  lemma BeginPublishKeeps(s: State, f: Frame)
    requires Inv(s) && Enabled(s, BeginPublish(f))
    ensures var t := Apply(s, BeginPublish(f)); Inv(t) && Queue(t) == Queue(s) && t.delivered == s.delivered
    ensures var t := Apply(s, BeginPublish(f));
      var room := Fits(f) && Size(f) <= |s.mem| - (s.published - s.consumed);
      && (t.producer.Filling? <==> room) && (f.recordType == RECORD_BLOCK ==> (t.rejected <==> s.rejected || !room))
  {
  }

  lemma StoreByteKeeps(s: State)
    requires Inv(s) && Enabled(s, StoreByte)
    ensures Inv(Apply(s, StoreByte)) && Queue(Apply(s, StoreByte)) == Queue(s)
  {
    StoreRing(s);
    var f, k := s.producer.frame, s.producer.written;
    var bytes := Pack(f, Size(f));
    StoreExtends(s.mem, s.published, k, bytes[k]);
    assert bytes[..k + 1] == bytes[..k] + [bytes[k]];
  }

  lemma ReleasedWindow(mem: seq<Byte>, consumed: nat, n: nat, queue: seq<Frame>, f: Frame)
    requires 0 < |mem| && Fits(f) && forall g :: g in queue ==> Fits(g)
    requires Window(mem, consumed, n) == EncodeAll(queue) && Window(mem, consumed + n, Size(f)) == Pack(f, Size(f))
    ensures Window(mem, consumed, n + Size(f)) == EncodeAll(queue + [f])
  {
    var w := Window(mem, consumed, n + Size(f));
    assert w == EncodeAll(queue) + Pack(f, Size(f)) by {
      WindowDrop(mem, consumed, n + Size(f), n);
      assert w == w[..n] + w[n..] && w[..n] == Window(mem, consumed, n);
    }
    EncodeAppend(queue, f);
  }

  lemma ReleaseKeeps(s: State)
    requires Inv(s) && Enabled(s, ReleasePublished)
    ensures Inv(Apply(s, ReleasePublished))
    ensures Queue(Apply(s, ReleasePublished)) == Queue(s) + [s.producer.frame]
  {
    var s' := Apply(s, ReleasePublished);
    var f := s.producer.frame;
    var n := s.published - s.consumed;
    assert Queue(s') == Queue(s) + [f];
    assert Pack(f, Size(f))[..Size(f)] == Pack(f, Size(f));
    ReleasedWindow(s.mem, s.consumed, n, Queue(s), f);
    if s.consumer.Copying? {
      assert Queue(s')[0] == Queue(s)[0];
    }
  }

  lemma BeginReadKeeps(s: State)
    requires Inv(s) && Enabled(s, BeginRead)
    ensures Inv(Apply(s, BeginRead)) && Queue(Apply(s, BeginRead)) == Queue(s)
  {
    EncodeAligned(Queue(s));
    assert Queue(s)[0] in s.accepted;
  }

  /** Nothing a reader copies from published bytes is ever malformed. */
  lemma NeverMalformed(s: State)
    requires Inv(s) && s.consumer.Copying?
    ensures !Malformed(s)
    ensures |s.consumer.got| >= HEADER_SIZE ==> Needed(s.consumer.got) == Size(Queue(s)[0])
  {
    var f, got := Queue(s)[0], s.consumer.got;
    var bytes := Pack(f, Size(f));
    PackedFrameReads(f);
    if |got| >= HEADER_SIZE {
      assert Unpack(got) == Unpack(bytes[..HEADER_SIZE]);
      if |got| >= Size(f) {
        assert got == bytes;
      }
    }
  }

  lemma PublishedByte(mem: seq<Byte>, consumed: nat, n: nat, queue: seq<Frame>, k: nat)
    requires 0 < |mem| && n <= |mem| && queue != [] && forall f :: f in queue ==> Fits(f)
    requires Window(mem, consumed, n) == EncodeAll(queue) && k < Size(queue[0])
    ensures mem[(consumed + k) % |mem|] == Pack(queue[0], Size(queue[0]))[k]
  {
    EncodeAligned(queue);
    assert Window(mem, consumed, n)[k] == mem[(consumed + k) % |mem|];
  }

  lemma CopyConsumer(s: State)
    requires Inv(s) && Enabled(s, CopyByte)
    ensures ConsumerInv(Apply(s, CopyByte)) && Queue(Apply(s, CopyByte)) == Queue(s)
  {
    NeverMalformed(s);
    var f, got := Queue(s)[0], s.consumer.got;
    var bytes := Pack(f, Size(f));
    var k := |got|;
    PublishedByte(s.mem, s.consumed, s.published - s.consumed, Queue(s), k);
    assert bytes[..k + 1] == bytes[..k] + [bytes[k]];
  }

  lemma CopyByteKeeps(s: State)
    requires Inv(s) && Enabled(s, CopyByte)
    ensures Inv(Apply(s, CopyByte)) && Queue(Apply(s, CopyByte)) == Queue(s)
  {
    CopyConsumer(s);
  }

  lemma JudgeKeeps(s: State)
    requires Inv(s) && Enabled(s, JudgeFrame)
    ensures Inv(Apply(s, JudgeFrame))
    ensures Queue(s) != [] && Queue(Apply(s, JudgeFrame)) == Queue(s)[1..]
    ensures Apply(s, JudgeFrame).delivered == s.delivered + [Queue(s)[0]]
  {
    NeverMalformed(s);
    var f, got := Queue(s)[0], s.consumer.got;
    var bytes := Pack(f, Size(f));
    PackedFrameReads(f);
    assert got == bytes;
    assert Unpack(got) == Unpack(bytes[..HEADER_SIZE]);
    OldestFrame(s.mem, s.consumed, s.published - s.consumed, Queue(s));
    var s' := Apply(s, JudgeFrame);
    assert s'.delivered == s.delivered + [f];
    assert s.accepted[|s.delivered|] == f;
    assert Queue(s') == Queue(s)[1..];
  }

  // --------------------------------------------------------------- refinement

  /** Every step of the bytes is a step of a FIFO queue: an enqueue when the producer releases
      its cursor, a dequeue when the consumer releases its own, and nothing otherwise. */
  lemma StepRefinesQueue(s: State, step: Step)
    requires Inv(s) && Enabled(s, step)
    ensures
      var s' := Apply(s, step);
      && Inv(s')
      && match step
         case ReleasePublished => Queue(s') == Queue(s) + [s.producer.frame] && s'.delivered == s.delivered
         case JudgeFrame => Queue(s) != [] && Queue(s') == Queue(s)[1..] && s'.delivered == s.delivered + [Queue(s)[0]]
         case _ => Queue(s') == Queue(s) && s'.delivered == s.delivered
  {
    match step
    case BeginPublish(f) => BeginPublishKeeps(s, f);
    case StoreByte => StoreByteKeeps(s);
    case ReleasePublished => ReleaseKeeps(s);
    case ProducerDies =>
    case BeginRead => BeginReadKeeps(s);
    case CopyByte => CopyByteKeeps(s);
    case JudgeFrame => JudgeKeeps(s);
  }

  ghost predicate Run(trace: seq<State>) {
    && |trace| > 0 && |trace[0].mem| > 0 && trace[0] == Initial(trace[0].mem)
    && forall n :: 0 <= n < |trace| - 1 ==>
      exists step :: Enabled(trace[n], step) && trace[n + 1] == Apply(trace[n], step)
  }

  lemma {:induction false} RunKeeps(trace: seq<State>, n: nat)
    requires Run(trace) && n < |trace|
    ensures Inv(trace[n])
  {
    if n > 0 {
      RunKeeps(trace, n - 1);
      var m := n - 1;
      var step :| Enabled(trace[m], step) && trace[m + 1] == Apply(trace[m], step);
      StepRefinesQueue(trace[m], step);
    }
  }

  /** In every run frames come out unaltered, in order and without one being skipped; the
      reader never breaks on published bytes; and once the producer is gone, an empty ring
      that is not flagged means that every accepted frame was read and none was refused. */
  lemma EveryInterleavingIsFifo(trace: seq<State>, n: nat)
    requires Run(trace) && n < |trace|
    ensures trace[n].delivered <= trace[n].accepted && !trace[n].consumer.Broken?
    ensures trace[n].consumed == trace[n].published ==> trace[n].delivered == trace[n].accepted
    ensures !trace[n].invalid ==> !trace[n].rejected
  {
    RunKeeps(trace, n);
    EncodeAligned(Queue(trace[n]));
  }
}
