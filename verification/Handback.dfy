/**
 The handback region past a pool: a header of digest and length, then unpadded frames.
 The header is retired before the body is overwritten and lands last, so whatever step a
 writer dies in, a reader gets the old snapshot, an error or the new one.
 */
module Handback {
  import opened Prelude
  import opened Frames

  /** The digest field of a header. `Of(data)` is the digest of `data`; distinct data have
      distinct digests. `Mixed` is a field some of whose bytes were overwritten: it is the
      digest of nothing. */
  datatype DigestField = Blank | Mixed | Of(data: seq<Byte>)

  /** The pool's file past the pool. A region is at least a header long; `body` is every
      byte behind the header, whatever the header says. */
  datatype Region = Absent | Stub | Region(digest: DigestField, size: nat, body: seq<Byte>)

  datatype SnapshotError = Torn | OtherTerms | BadFrame(error: FrameError)

  // ------------------------------------------------------------------ the body

  function EncodeBody(frames: seq<Frame>): seq<Byte>
    requires forall f :: f in frames ==> Fits(f)
  {
    if frames == [] then [] else Pack(frames[0], FrameSize(frames[0])) + EncodeBody(frames[1..])
  }

  /** What the replay of a body does: header, bounds and type of each frame in turn. */
  function DecodeBody(body: seq<Byte>): (r: Result<seq<Frame>, FrameError>)
    decreases |body|
  {
    if body == [] then Ok([])
    else
      match Head(body)
      case Err(e) => Err(e)
      case Ok(h) => Onto([Body(body, h)], DecodeBody(body[h.frameSize..]))
  }

  /** The first header, if it is one and its frame lies within the bytes. */
  function Head(bytes: seq<Byte>): (r: Result<Header, FrameError>)
    ensures r.Ok? ==> HEADER_SIZE + r.value.keySize <= r.value.frameSize <= |bytes|
  {
    if |bytes| < HEADER_SIZE then Err(Truncated)
    else
      var h := Unpack(bytes);
      if h.frameSize < HEADER_SIZE + h.keySize || h.frameSize > |bytes| then Err(BadKeySize)
      else if h.recordType != RECORD_BLOCK then Err(UnknownType)
      else Ok(h)
  }

  /** A written body replays to exactly the frames it was written from, in order. */
  lemma {:induction false} BodyRoundTrip(frames: seq<Frame>)
    requires forall f :: f in frames ==> Fits(f)
    ensures DecodeBody(EncodeBody(frames)) == Ok(frames)
  {
    if frames != [] {
      var f, rest := frames[0], EncodeBody(frames[1..]);
      BodyRoundTrip(frames[1..]);
      UnpackPack(f, FrameSize(f), rest);
      assert (Pack(f, FrameSize(f)) + rest)[FrameSize(f)..] == rest;
      assert frames == [f] + frames[1..];
    }
  }

  lemma {:induction false} BodyIsEmptyOnlyForNothing(frames: seq<Frame>)
    requires forall f :: f in frames ==> Fits(f)
    ensures EncodeBody(frames) == [] <==> frames == []
  {}

  function Onto(frames: seq<Frame>, rest: Result<seq<Frame>, FrameError>): Result<seq<Frame>, FrameError> {
    if rest.Err? then rest else Ok(frames + rest.value)
  }

  lemma OntoNothing(rest: Result<seq<Frame>, FrameError>)
    ensures Onto([], rest) == rest
  {
    assert rest.Ok? ==> [] + rest.value == rest.value;
  }

  lemma OntoAssociates(frames: seq<Frame>, f: Frame, rest: Result<seq<Frame>, FrameError>)
    ensures Onto(frames, Onto([f], rest)) == Onto(frames + [f], rest)
  {
    if rest.Ok? {
      assert frames + ([f] + rest.value) == (frames + [f]) + rest.value;
    }
  }

  lemma NextFrame(body: seq<Byte>, offset: nat, frames: seq<Frame>)
    requires offset < |body| && Head(body[offset..]).Ok?
    ensures var tail, h := body[offset..], Head(body[offset..]).value;
      Onto(frames, DecodeBody(tail)) == Onto(frames + [Body(tail, h)], DecodeBody(body[offset + h.frameSize..]))
  {
    var tail, h := body[offset..], Head(body[offset..]).value;
    assert tail[h.frameSize..] == body[offset + h.frameSize..];
    OntoAssociates(frames, Body(tail, h), DecodeBody(tail[h.frameSize..]));
  }

  lemma BadHead(frames: seq<Frame>, tail: seq<Byte>)
    requires tail != [] && Head(tail).Err?
    ensures Onto(frames, DecodeBody(tail)) == Err(Head(tail).error)
  {
  }

  /** What is still to be replayed, once `frames` have been read up to `offset`. */
  ghost function Left(body: seq<Byte>, offset: nat, frames: seq<Frame>): Result<seq<Frame>, FrameError>
    requires offset <= |body|
  {
    Onto(frames, DecodeBody(body[offset..]))
  }

  lemma LeftNext(body: seq<Byte>, offset: nat, frames: seq<Frame>, h: Header)
    requires offset < |body| && Head(body[offset..]) == Ok(h)
    ensures Left(body, offset, frames) == Left(body, offset + h.frameSize, frames + [Body(body[offset..], h)])
  {
    NextFrame(body, offset, frames);
  }

  /** The replay loop of `read_recovery_snapshot`. */
  method ReplayBody(body: seq<Byte>) returns (r: Result<seq<Frame>, FrameError>)
    ensures r == DecodeBody(body)
  {
    var frames: seq<Frame> := [];
    var offset := 0;
    ghost var all := DecodeBody(body);
    assert body[0..] == body;
    OntoNothing(all);
    while offset < |body|
      invariant 0 <= offset <= |body|
      invariant all == Left(body, offset, frames)
    {
      var head := Head(body[offset..]);
      if head.Err? {
        BadHead(frames, body[offset..]);
        return Err(head.error);
      }
      LeftNext(body, offset, frames, head.value);
      frames := frames + [Body(body[offset..], head.value)];
      offset := offset + head.value.frameSize;
    }
    assert body[offset..] == [];
    assert frames + [] == frames;
    r := Ok(frames);
  }

  // ------------------------------------------------------------------ reading

  /** `read_recovery_snapshot`. */
  function ReadRegion(region: Region, terms: seq<Byte>): Result<seq<Frame>, SnapshotError> {
    match region
    case Absent => Ok([])
    case Stub => Err(Torn)
    case Region(digest, size, body) =>
      if size == 0 || size > |body| then Err(Torn)
      else if digest != Of(terms + body[..size]) then Err(OtherTerms)
      else match DecodeBody(body[..size])
        case Ok(frames) => Ok(frames)
        case Err(e) => Err(BadFrame(e))
  }

  // ------------------------------------------------------------------ writing

  /** Bytes of an interrupted overwrite: each is still the old one or already the new one. */
  ghost predicate Overwriting(before: seq<Byte>, after: seq<Byte>, now: seq<Byte>) {
    |before| == |after| == |now| && forall k :: 0 <= k < |now| ==> now[k] == before[k] || now[k] == after[k]
  }

  /** A digest field some, none or all of whose bytes went from `before` to `after`. */
  predicate DigestBetween(before: DigestField, after: DigestField, now: DigestField) {
    now == before || now == after || now == Mixed
  }

  function Resize(body: seq<Byte>, n: nat): (r: seq<Byte>)
    ensures |r| == n
  {
    if n <= |body| then body[..n] else body + Zeros(n - |body|)
  }

  /** The region once the file has its new length, with whatever header it had. */
  function Resized(prior: Region, n: nat): Region {
    match prior
    case Absent => Region(Blank, 0, Zeros(n))
    case Stub => Region(Blank, 0, Zeros(n))
    case Region(digest, size, body) => Region(digest, size, Resize(body, n))
  }

  function Placed(tail: seq<Byte>, body: seq<Byte>): (r: seq<Byte>)
    requires |body| <= |tail|
    ensures |r| == |tail| && r[..|body|] == body
  {
    body + tail[|body|..]
  }

  /** Every region a writer that dies on the way from `prior` to a new body can leave. */
  ghost predicate LeftByCrash(prior: Region, terms: seq<Byte>, body: seq<Byte>, n: nat, now: Region)
    requires |body| <= n
  {
    var start := Resized(prior, n);
    || now == prior
    // The old header is being zeroed; nothing else has been touched.
    || (&& now.Region? && now.body == start.body
        && DigestBetween(start.digest, Blank, now.digest) && now.size <= start.size)
    // The header is blank; the body is being stored.
    || (now.Region? && now.digest == Blank && now.size == 0
        && Overwriting(start.body, Placed(start.body, body), now.body))
    // The body is complete; the header is being stored.
    || (&& now.Region? && now.body == Placed(start.body, body)
        && DigestBetween(Blank, Of(terms + body), now.digest) && now.size <= |body|)
  }

  function Finished(prior: Region, terms: seq<Byte>, body: seq<Byte>, n: nat): Region
    requires |body| <= n
  {
    Region(Of(terms + body), |body|, Placed(Resized(prior, n).body, body))
  }

  /** A finished region read under the terms it was written for yields the written frames;
      under any other terms it is refused. */
  lemma FinishedReadsBack(prior: Region, written: seq<Byte>, read: seq<Byte>, frames: seq<Frame>, n: nat)
    requires frames != [] && (forall f :: f in frames ==> Fits(f)) && |EncodeBody(frames)| <= n
    ensures ReadRegion(Finished(prior, written, EncodeBody(frames), n), read)
            == if read == written then Ok(frames) else Err(OtherTerms)
  {
    var body := EncodeBody(frames);
    BodyRoundTrip(frames);
    BodyIsEmptyOnlyForNothing(frames);
    if written + body == read + body {
      assert written == (written + body)[..|written|];
      assert read == (read + body)[..|read|];
    }
  }

  /** The frames are everything the region's header was once finished over. */
  predicate WholeOf(region: Region, terms: seq<Byte>, frames: seq<Frame>) {
    match region
    case Absent => frames == []
    case Stub => false
    case Region(digest, _, _) => digest.Of? && terms <= digest.data && DecodeBody(digest.data[|terms|..]) == Ok(frames)
  }

  lemma AcceptedIsWhole(region: Region, terms: seq<Byte>)
    requires ReadRegion(region, terms).Ok?
    ensures WholeOf(region, terms, ReadRegion(region, terms).value)
  {
    if region.Region? {
      assert (terms + region.body[..region.size])[|terms|..] == region.body[..region.size];
    }
  }

  /** Whichever byte a writer dies at, the next reader gets the whole old snapshot, a refusal,
      or the whole new snapshot: never part of either. */
  lemma CrashIsAllOrNothing(prior: Region, terms: seq<Byte>, frames: seq<Frame>, n: nat, now: Region)
    requires frames != [] && (forall f :: f in frames ==> Fits(f)) && |EncodeBody(frames)| <= n
    requires LeftByCrash(prior, terms, EncodeBody(frames), n, now)
    ensures
      match ReadRegion(now, terms)
      case Err(_) => true
      case Ok(read) => read == frames || WholeOf(prior, terms, read)
  {
    var body := EncodeBody(frames);
    BodyRoundTrip(frames);
    if ReadRegion(now, terms).Ok? && now != prior {
      AcceptedIsWhole(now, terms);
      if now.digest == Of(terms + body) {
        assert (terms + body)[|terms|..] == body;
      } else {
        assert now.digest == Resized(prior, n).digest;
        assert prior.Region? && now.digest == prior.digest;
      }
    } else if ReadRegion(now, terms).Ok? {
      AcceptedIsWhole(now, terms);
    }
  }

  // ---------------------------------------------------- the writer, in place

  /** The pool's backing file past the pool. */
  class PoolFile {
    var region: Region

    constructor ()
      ensures region == Absent
    {
      region := Absent;
    }

    /** `release_snapshot_region`. */
    method Release()
      modifies this
      ensures region == Absent
    {
      region := Absent;
    }

    /** `write_recovery_snapshot`, with `aligned` the backing's page multiple of the region. An
        oversized frame is refused before the file is touched; nothing to say leaves no region. */
    method WriteSnapshot(terms: seq<Byte>, frames: seq<Frame>, aligned: nat) returns (ok: bool)
      requires forall f :: f in frames ==> f.recordType == RECORD_BLOCK
      requires (forall f :: f in frames ==> Fits(f)) ==> |EncodeBody(frames)| <= aligned
      modifies this
      ensures ok <==> forall f :: f in frames ==> Fits(f)
      ensures !ok ==> region == old(region)
      ensures ok && frames == [] ==> region == Absent
      ensures ok && frames != [] ==> region == Finished(old(region), terms, EncodeBody(frames), aligned)
      ensures ok ==> ReadRegion(region, terms) == Ok(frames)
    {
      var body := [];
      var i := 0;
      while i < |frames|
        invariant 0 <= i <= |frames|
        invariant forall k :: 0 <= k < i ==> Fits(frames[k])
        invariant body == EncodeBody(frames[..i])
        invariant region == old(region)
      {
        if FrameSize(frames[i]) > MAX_FRAME_SIZE {
          assert !Fits(frames[i]);
          return false;
        }
        EncodeBodyAppend(frames[..i], frames[i]);
        assert frames[..i + 1] == frames[..i] + [frames[i]];
        body := body + Pack(frames[i], FrameSize(frames[i]));
        i := i + 1;
      }
      assert frames[..|frames|] == frames;
      BodyIsEmptyOnlyForNothing(frames);
      ok := true;
      if body == [] {
        region := Absent;
        return;
      }
      FinishedReadsBack(region, terms, terms, frames, aligned);
      region := Resized(region, aligned);
      region := region.(digest := Blank, size := 0);
      region := region.(body := Placed(region.body, body));
      region := region.(digest := Of(terms + body), size := |body|);
    }

    method ReadSnapshot(terms: seq<Byte>) returns (r: Result<seq<Frame>, SnapshotError>)
      ensures r == ReadRegion(region, terms)
    {
      if region.Absent? {
        return Ok([]);
      }
      if region.Stub? || region.size == 0 || region.size > |region.body| {
        return Err(Torn);
      }
      if region.digest != Of(terms + region.body[..region.size]) {
        return Err(OtherTerms);
      }
      var frames := ReplayBody(region.body[..region.size]);
      r := if frames.Ok? then Ok(frames.value) else Err(BadFrame(frames.error));
    }
  }

  lemma {:induction false} EncodeBodyAppend(frames: seq<Frame>, f: Frame)
    requires Fits(f) && forall g :: g in frames ==> Fits(g)
    ensures EncodeBody(frames + [f]) == EncodeBody(frames) + Pack(f, FrameSize(f))
  {
    if frames == [] {
      assert (frames + [f])[1..] == [];
      assert EncodeBody(frames + [f]) == Pack(f, FrameSize(f)) + [];
    } else {
      assert (frames + [f])[1..] == frames[1..] + [f];
      EncodeBodyAppend(frames[1..], f);
    }
  }
}
