/**
 Completing a public operation whose keys were split over several backends. Each backend reports
 on its own keys, in one call or more; the operation completes once, when all keys have been
 reported on.
 */
module JoinedCompletions {
  import opened Prelude

  type Handle = nat
  type Entries = map<BlockKey, bool>
  datatype Joined = Joined(expected: set<BlockKey>, completed: Entries)

  /** The completion table and the queue of finished operations. */
  datatype Desk = Desk(joined: map<Handle, Joined>, queue: seq<(Handle, Entries)>)

  function Report(d: Desk, h: Handle, entries: Entries): Desk {
    if h !in d.joined then d.(queue := d.queue + [(h, entries)])
    else
      var all := d.joined[h].completed + entries;
      if d.joined[h].expected <= all.Keys then Desk(d.joined - {h}, d.queue + [(h, all)])
      else d.(joined := d.joined[h := d.joined[h].(completed := all)])
  }

  /** Which results are out so far. */
  function Merge(parts: seq<Entries>): Entries {
    if parts == [] then map[] else Merge(parts[..|parts| - 1]) + parts[|parts| - 1]
  }

  function ReportAll(d: Desk, h: Handle, parts: seq<Entries>): Desk {
    if parts == [] then d else Report(ReportAll(d, h, parts[..|parts| - 1]), h, parts[|parts| - 1])
  }

  /** No report comes after the one that settles the last key. */
  ghost predicate SettlesLast(parts: seq<Entries>, expected: set<BlockKey>) {
    forall i :: 0 <= i < |parts| ==> !(expected <= Merge(parts[..i]).Keys)
  }

  lemma {:induction false} StillOpen(d: Desk, h: Handle, expected: set<BlockKey>, parts: seq<Entries>)
    requires h !in d.joined && SettlesLast(parts, expected) && !(expected <= Merge(parts).Keys)
    ensures ReportAll(d.(joined := d.joined[h := Joined(expected, map[])]), h, parts)
      == d.(joined := d.joined[h := Joined(expected, Merge(parts))])
  {
    if parts != [] {
      var rest := parts[..|parts| - 1];
      forall i | 0 <= i < |rest| ensures !(expected <= Merge(rest[..i]).Keys) { assert rest[..i] == parts[..i]; }
      StillOpen(d, h, expected, rest);
    }
  }

  /** A joined operation completes exactly once, with its last report, on exactly its keys,
      each with the result last reported for it; no other operation is affected. */
  lemma CompletesOnce(d: Desk, h: Handle, expected: set<BlockKey>, parts: seq<Entries>)
    requires h !in d.joined && parts != [] && SettlesLast(parts, expected) && Merge(parts).Keys == expected
    ensures ReportAll(d.(joined := d.joined[h := Joined(expected, map[])]), h, parts)
      == Desk(d.joined, d.queue + [(h, Merge(parts))])
  {
    var rest := parts[..|parts| - 1];
    forall i | 0 <= i < |rest| ensures !(expected <= Merge(rest[..i]).Keys) { assert rest[..i] == parts[..i]; }
    StillOpen(d, h, expected, rest);
    assert d.joined[h := Joined(expected, Merge(rest))] - {h} == d.joined;
  }

  lemma {:induction false} MergeLacks(parts: seq<Entries>, k: BlockKey)
    requires forall j :: 0 <= j < |parts| ==> k !in parts[j]
    ensures k !in Merge(parts)
  {
    if parts != [] {
      MergeLacks(parts[..|parts| - 1], k);
    }
  }

  /** Where each key of a delivery is served from. */
  datatype Route = Local | Disk | Remote

  function KeysOf(route: map<BlockKey, Route>, r: Route): set<BlockKey> {
    set k | k in route && route[k] == r
  }

  /** How the disk answers a delivery: the keys it no longer has or whose layout does not match,
      whether all destinations are of one memory type, and how the transfer ends. */
  datatype DiskAnswer = DiskAnswer(rejected: set<BlockKey>, oneType: bool, ok: bool)

  function All(keys: set<BlockKey>, ok: bool): Entries { map k | k in keys :: ok }

  /** What the disk reports before it starts a transfer. */
  function FirstReports(a: DiskAnswer): seq<Entries> { if a.rejected == {} then [] else [All(a.rejected, false)] }

  /** The disk reports rejected keys at once and the others when their transfer has ended; if it
      cannot start the transfer, all its keys are reported failed, the rejected ones again. */
  function DiskReports(keys: set<BlockKey>, a: DiskAnswer): seq<Entries> {
    var first := FirstReports(a);
    if keys <= a.rejected then first
    else if !a.oneType then first + [All(keys, false)]
    else first + [All(keys - a.rejected, a.ok)]
  }

  /** A backend's reports are on its own keys, and its last one is the first that leaves none out. */
  ghost predicate Covers(keys: set<BlockKey>, reports: seq<Entries>) {
    && reports != [] && Merge(reports).Keys == keys
    && (forall i :: 0 <= i < |reports| ==> reports[i].Keys <= keys)
    && !(keys <= Merge(reports[..|reports| - 1]).Keys)
  }

  lemma OneCovers(keys: set<BlockKey>, e: Entries)
    requires keys != {} && e.Keys == keys
    ensures Covers(keys, [e])
  {
    assert [e][..0] == [];
    assert Merge([e]) == Merge([]) + e;
  }

  lemma DiskCovers(keys: set<BlockKey>, a: DiskAnswer)
    requires keys != {} && a.rejected <= keys
    ensures Covers(keys, DiskReports(keys, a))
  {
    var reports := DiskReports(keys, a);
    if keys <= a.rejected {
      assert All(a.rejected, false).Keys == keys;
      OneCovers(keys, reports[0]);
    } else if a.rejected == {} {
      assert All(keys, false).Keys == keys && All(keys - a.rejected, a.ok).Keys == keys;
      OneCovers(keys, reports[0]);
    } else {
      assert reports[..1] == [All(a.rejected, false)];
      assert Merge([All(a.rejected, false)]) == Merge([]) + All(a.rejected, false);
      assert Merge(reports) == Merge(reports[..1]) + reports[1];
    }
  }

  /** One backend's reports among all. */
  function Only(parts: seq<Entries>, from: seq<Route>, r: Route): seq<Entries>
    requires |from| == |parts|
  {
    if parts == [] then []
    else
      var last := |parts| - 1;
      Only(parts[..last], from[..last], r) + if from[last] == r then [parts[last]] else []
  }

  lemma {:induction false} OnlyHas(parts: seq<Entries>, from: seq<Route>, i: nat)
    requires |from| == |parts| && i < |parts|
    ensures parts[i] in Only(parts, from, from[i])
  {
    var last := |parts| - 1;
    if i < last {
      OnlyHas(parts[..last], from[..last], i);
    }
  }

  /** What a prefix of the reports says about a key is what its backend has said so far. */
  lemma {:induction false} MergeOnly(parts: seq<Entries>, from: seq<Route>, route: map<BlockKey, Route>, k: BlockKey)
    requires |from| == |parts| && k in route && forall i :: 0 <= i < |parts| ==> parts[i].Keys <= KeysOf(route, from[i])
    ensures k in Merge(parts) <==> k in Merge(Only(parts, from, route[k]))
    ensures k in Merge(parts) ==> Merge(parts)[k] == Merge(Only(parts, from, route[k]))[k]
  {
    if parts != [] {
      var last := |parts| - 1;
      var before := Only(parts[..last], from[..last], route[k]);
      MergeOnly(parts[..last], from[..last], route, k);
      if from[last] == route[k] {
        assert Only(parts, from, route[k]) == before + [parts[last]];
        assert (before + [parts[last]])[..|before|] == before;
        assert Merge(before + [parts[last]]) == Merge(before) + parts[last];
      } else {
        assert Only(parts, from, route[k]) == before;
        assert k !in KeysOf(route, from[last]);
      }
    }
  }

  lemma {:induction false} MergePrefix(parts: seq<Entries>, n: nat)
    requires n <= |parts|
    ensures Merge(parts[..n]).Keys <= Merge(parts).Keys
  {
    if n < |parts| {
      assert parts[..|parts| - 1][..n] == parts[..n];
      MergePrefix(parts[..|parts| - 1], n);
    } else {
      assert parts[..n] == parts;
    }
  }

  ghost predicate Serves(route: map<BlockKey, Route>, parts: seq<Entries>, from: seq<Route>, r: Route)
    requires |from| == |parts|
  {
    if KeysOf(route, r) == {} then Only(parts, from, r) == [] else Covers(KeysOf(route, r), Only(parts, from, r))
  }

  /** Every backend that serves something covers its keys, whenever the others report. */
  ghost predicate Reports(route: map<BlockKey, Route>, parts: seq<Entries>, from: seq<Route>) {
    && |from| == |parts| && (forall i :: 0 <= i < |parts| ==> parts[i].Keys <= KeysOf(route, from[i]))
    && (forall r :: Serves(route, parts, from, r))
  }

  /** Before the last report some key of its backend is still out. */
  lemma LastIsNeeded(route: map<BlockKey, Route>, parts: seq<Entries>, from: seq<Route>, n: nat)
    requires Reports(route, parts, from) && n < |parts|
    ensures !(route.Keys <= Merge(parts[..n]).Keys)
  {
    var last := |parts| - 1;
    var r := from[last];
    OnlyHas(parts, from, last);
    var mine := Only(parts, from, r);
    assert Serves(route, parts, from, r);
    var k :| k in KeysOf(route, r) && k !in Merge(mine[..|mine| - 1]);
    assert mine[..|mine| - 1] == Only(parts[..last], from[..last], r);
    MergeOnly(parts[..last], from[..last], route, k);
    MergePrefix(parts[..last], n);
    assert parts[..last][..n] == parts[..n];
  }

  lemma AllAreReported(route: map<BlockKey, Route>, parts: seq<Entries>, from: seq<Route>)
    requires Reports(route, parts, from)
    ensures Merge(parts).Keys == route.Keys
  {
    forall k ensures k in Merge(parts) <==> k in route {
      if k in route {
        MergeOnly(parts, from, route, k);
        assert k in KeysOf(route, route[k]);
        assert Serves(route, parts, from, route[k]);
      } else {
        MergeLacks(parts, k);
      }
    }
  }

  /** `deliver` opens a joined completion when more than one backend is involved; the disk opens
      one itself before it reports rejected keys, unless there is one. */
  predicate IsJoined(route: map<BlockKey, Route>, a: DiskAnswer) {
    || (exists j, k :: j in route && k in route && route[j] != route[k])
    || (KeysOf(route, Disk) != {} && a.rejected != {})
  }

  function Opened(d: Desk, h: Handle, route: map<BlockKey, Route>, a: DiskAnswer): Desk {
    if IsJoined(route, a) then d.(joined := d.joined[h := Joined(route.Keys, map[])]) else d
  }

  /** Local DRAM and the remote backend report once, on all their keys. */
  ghost predicate ReportsOnce(route: map<BlockKey, Route>, parts: seq<Entries>, from: seq<Route>, r: Route)
    requires |from| == |parts|
  {
    var mine := Only(parts, from, r);
    if KeysOf(route, r) == {} then mine == [] else |mine| == 1 && mine[0].Keys == KeysOf(route, r)
  }

  /** How the backends of a delivery report, in whatever order. */
  ghost predicate Answered(route: map<BlockKey, Route>, a: DiskAnswer, parts: seq<Entries>, from: seq<Route>) {
    && |from| == |parts| && a.rejected <= KeysOf(route, Disk)
    && ReportsOnce(route, parts, from, Local) && ReportsOnce(route, parts, from, Remote)
    && Only(parts, from, Disk) == if KeysOf(route, Disk) == {} then [] else DiskReports(KeysOf(route, Disk), a)
  }

  lemma AnsweredReports(route: map<BlockKey, Route>, a: DiskAnswer, parts: seq<Entries>, from: seq<Route>)
    requires Answered(route, a, parts, from)
    ensures Reports(route, parts, from)
  {
    forall r ensures Serves(route, parts, from, r) {
      if KeysOf(route, r) != {} {
        match r
        case Disk => DiskCovers(KeysOf(route, Disk), a);
        case Local =>
          assert Only(parts, from, r) == [Only(parts, from, r)[0]];
          OneCovers(KeysOf(route, r), Only(parts, from, r)[0]);
        case Remote =>
          assert Only(parts, from, r) == [Only(parts, from, r)[0]];
          OneCovers(KeysOf(route, r), Only(parts, from, r)[0]);
      }
    }
    forall i | 0 <= i < |parts| ensures parts[i].Keys <= KeysOf(route, from[i]) {
      OnlyHas(parts, from, i);
      assert Serves(route, parts, from, from[i]);
    }
  }

  /** Without a joined completion there is one backend, and it reports once. */
  lemma {:induction false} OnlyOne(parts: seq<Entries>, from: seq<Route>, r: Route)
    requires |from| == |parts| && forall i :: 0 <= i < |parts| ==> from[i] == r
    ensures Only(parts, from, r) == parts
  {
    if parts != [] {
      var last := |parts| - 1;
      OnlyOne(parts[..last], from[..last], r);
    }
  }

  lemma AloneReportsOnce(route: map<BlockKey, Route>, a: DiskAnswer, parts: seq<Entries>, from: seq<Route>)
    requires Answered(route, a, parts, from) && route != map[] && !IsJoined(route, a)
    ensures |parts| == 1
  {
    var k :| k in route;
    var r := route[k];
    forall i | 0 <= i < |parts| ensures from[i] == r {
      OnlyHas(parts, from, i);
      assert KeysOf(route, from[i]) != {};
    }
    OnlyOne(parts, from, r);
    assert k in KeysOf(route, r);
  }

  lemma LastSettles(route: map<BlockKey, Route>, a: DiskAnswer, parts: seq<Entries>, from: seq<Route>)
    requires route != map[] && Answered(route, a, parts, from)
    ensures parts != [] && SettlesLast(parts, route.Keys) && Merge(parts).Keys == route.Keys
  {
    AnsweredReports(route, a, parts, from);
    AllAreReported(route, parts, from);
    forall i | 0 <= i < |parts| ensures !(route.Keys <= Merge(parts[..i]).Keys) { LastIsNeeded(route, parts, from, i); }
  }

  /** The result of a key is the last one its backend gave. */
  ghost predicate SaidLast(parts: seq<Entries>, from: seq<Route>, r: Route, k: BlockKey)
    requires |from| == |parts|
  {
    k in Merge(parts) && k in Merge(Only(parts, from, r)) && Merge(parts)[k] == Merge(Only(parts, from, r))[k]
  }

  lemma AloneCompletes(d: Desk, h: Handle, route: map<BlockKey, Route>, a: DiskAnswer, parts: seq<Entries>,
                       from: seq<Route>)
    requires h !in d.joined && route != map[] && Answered(route, a, parts, from) && !IsJoined(route, a)
    ensures ReportAll(d, h, parts) == Desk(d.joined, d.queue + [(h, Merge(parts))])
  {
    AloneReportsOnce(route, a, parts, from);
    OneReport(d, h, parts[0]);
    assert parts == [parts[0]];
  }

  lemma EachFromItsBackend(route: map<BlockKey, Route>, a: DiskAnswer, parts: seq<Entries>, from: seq<Route>,
                           k: BlockKey)
    requires Answered(route, a, parts, from) && k in route
    ensures SaidLast(parts, from, route[k], k)
  {
    AnsweredReports(route, a, parts, from);
    AllAreReported(route, parts, from);
    MergeOnly(parts, from, route, k);
  }

  /** However a delivery is split, whatever the disk rejects and however it fails, and in whatever
      order the reports come: it completes exactly once, with the last report, with one result
      for each of its keys, the one last reported by the backend that serves the key. */
  lemma DeliveryCompletesOnce(d: Desk, h: Handle, route: map<BlockKey, Route>, a: DiskAnswer, parts: seq<Entries>,
                              from: seq<Route>)
    requires h !in d.joined && route != map[] && Answered(route, a, parts, from)
    ensures ReportAll(Opened(d, h, route, a), h, parts) == Desk(d.joined, d.queue + [(h, Merge(parts))])
    ensures Merge(parts).Keys == route.Keys
    ensures forall k :: k in route ==> SaidLast(parts, from, route[k], k)
  {
    LastSettles(route, a, parts, from);
    forall k | k in route ensures SaidLast(parts, from, route[k], k) { EachFromItsBackend(route, a, parts, from, k); }
    if IsJoined(route, a) {
      CompletesOnce(d, h, route.Keys, parts);
    } else {
      AloneCompletes(d, h, route, a, parts, from);
    }
  }

  lemma OneReport(d: Desk, h: Handle, e: Entries)
    requires h !in d.joined
    ensures ReportAll(d, h, [e]) == Desk(d.joined, d.queue + [(h, Merge([e]))])
  {
    assert [e][..0] == [];
    var none: Entries := map[];
    assert none + e == e && Merge([e]) == Merge([]) + e;
    assert ReportAll(d, h, [e]) == Report(ReportAll(d, h, []), h, e);
  }

  /** A delivery all of whose keys are on disk. */
  function OnDisk(keys: set<BlockKey>): map<BlockKey, Route> { map k | k in keys :: Disk }

  lemma DiskAloneOpens(d: Desk, h: Handle, keys: set<BlockKey>, a: DiskAnswer)
    requires h !in d.joined && a.rejected <= keys
    ensures a.rejected == {} ==> ReportAll(Opened(d, h, OnDisk(keys), a), h, FirstReports(a)) == d
    ensures a.rejected != {} ==>
      ReportAll(Opened(d, h, OnDisk(keys), a), h, FirstReports(a))
      == Report(d.(joined := d.joined[h := Joined(keys, map[])]), h, All(a.rejected, false))
  {
    assert a.rejected <= KeysOf(OnDisk(keys), Disk);
    assert OnDisk(keys).Keys == keys;
    var from := Opened(d, h, OnDisk(keys), a);
    if a.rejected != {} {
      var first := [All(a.rejected, false)];
      assert first[..0] == [];
      assert ReportAll(from, h, first) == Report(ReportAll(from, h, []), h, first[0]);
    }
  }

  class CompletionDesk {
    var joined: map<Handle, Joined>
    var queue: seq<(Handle, Entries)>

    constructor ()
      ensures joined == map[] && queue == []
    {
      joined, queue := map[], [];
    }

    method Open(h: Handle, keys: set<BlockKey>)
      modifies this`joined
      ensures joined == old(joined)[h := Joined(keys, map[])]
    {
      joined := joined[h := Joined(keys, map[])];
    }

    /** The disk's `setdefault`: a completion that is already joined stays as it is. */
    method OpenUnlessJoined(h: Handle, keys: set<BlockKey>)
      modifies this`joined
      ensures h in old(joined) ==> joined == old(joined)
      ensures h !in old(joined) ==> joined == old(joined)[h := Joined(keys, map[])]
    {
      if h !in joined {
        Open(h, keys);
      }
    }

    /** How the disk starts a delivery of `keys`: it joins the completion if it rejects some of them,
        and reports these. Where only the disk serves the delivery, this opens it as `Opened`
        says and makes its first reports. */
    method Reject(h: Handle, keys: set<BlockKey>, a: DiskAnswer)
      requires a.rejected <= keys
      modifies this
      ensures h !in old(joined) ==>
        Desk(joined, queue) == ReportAll(Opened(old(Desk(joined, queue)), h, OnDisk(keys), a), h, FirstReports(a))
      ensures h in old(joined) ==> Desk(joined, queue) == ReportAll(old(Desk(joined, queue)), h, FirstReports(a))
    {
      if h !in joined {
        DiskAloneOpens(Desk(joined, queue), h, keys, a);
      }
      ghost var before := Desk(joined, queue);
      if a.rejected != {} {
        assert [All(a.rejected, false)][..0] == [];
        assert ReportAll(before, h, [All(a.rejected, false)])
            == Report(ReportAll(before, h, []), h, All(a.rejected, false));
        OpenUnlessJoined(h, keys);
        Complete(h, All(a.rejected, false));
      }
    }

    method Complete(h: Handle, entries: Entries)
      modifies this
      ensures Desk(joined, queue) == Report(old(Desk(joined, queue)), h, entries)
    {
      var result := entries;
      if h in joined {
        var all := joined[h].completed + entries;
        if !(joined[h].expected <= all.Keys) {
          joined := joined[h := joined[h].(completed := all)];
          return;
        }
        joined := joined - {h};
        result := all;
      }
      queue := queue + [(h, result)];
    }
  }
}
