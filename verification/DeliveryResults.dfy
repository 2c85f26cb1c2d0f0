/**
 A delivery across its backends. What each backend reports is not taken for granted here: local
 DRAM reports what the runs of its operations complete, the disk what the polls of its copy
 hand over, and the remote backend what the polls of its pull hand over.
 */
module DeliveryResults {
  import opened Prelude
  import LocalOps
  import LocalOutcomes
  import LocalResults
  import opened Lifecycles
  import opened JoinedCompletions

  /** The completions of one operation, in order. */
  function ReportsOf(done: seq<LocalOps.Completion>, o: LocalOps.OpId): seq<Entries> {
    if done == [] then []
    else
      var last := done[|done| - 1];
      ReportsOf(done[..|done| - 1], o) + if last.op == o then [last.results] else []
  }

  lemma {:induction false} NoReports(done: seq<LocalOps.Completion>, o: LocalOps.OpId)
    requires forall i :: 0 <= i < |done| ==> done[i].op != o
    ensures ReportsOf(done, o) == []
  {
    if done != [] {
      NoReports(done[..|done| - 1], o);
    }
  }

  lemma {:induction false} OneReportOf(done: seq<LocalOps.Completion>, o: LocalOps.OpId, n: nat)
    requires n < |done| && done[n].op == o && forall i :: 0 <= i < |done| && i != n ==> done[i].op != o
    ensures ReportsOf(done, o) == [done[n].results]
  {
    var last := |done| - 1;
    if n == last {
      NoReports(done[..last], o);
    } else {
      OneReportOf(done[..last], o, n);
    }
  }

  /** In every run, a local operation that is neither pending nor giving back has reported once,
      on its keys; before that it has reported nothing. */
  lemma LocalReportsOnce(all: set<Slot>, moves: seq<LocalResults.LocalRuns.Move>, o: LocalOps.OpId)
    requires LocalResults.CanRun(LocalResults.Start(all), moves)
    requires o in LocalResults.After(LocalResults.Start(all), moves).t.ops
    ensures var t := LocalResults.After(LocalResults.Start(all), moves).t;
      var mine := ReportsOf(t.done, o);
      if o in t.pending || o in t.leaving then mine == [] else |mine| == 1 && mine[0].Keys == t.ops[o].keys
  {
    LocalResults.OperationsCompleteOnce(all, moves);
    var t := LocalResults.After(LocalResults.Start(all), moves).t;
    if o in t.pending || o in t.leaving {
      NoReports(t.done, o);
    } else {
      var n :| 0 <= n < |t.done| && t.done[n].op == o;
      OneReportOf(t.done, o, n);
    }
  }

  /** ... and for each key it has reported a success exactly if a copy that carried the key for it came
      back with success. */
  lemma LocalReportFollows(all: set<Slot>, moves: seq<LocalResults.LocalRuns.Move>, o: LocalOps.OpId, k: BlockKey)
    requires LocalResults.CanRun(LocalResults.Start(all), moves)
    requires var t := LocalResults.After(LocalResults.Start(all), moves).t;
      o in t.ops && t.ops[o].kind == LocalOps.Deliver && o !in t.pending && o !in t.leaving && k in t.ops[o].keys
    ensures var mine := ReportsOf(LocalResults.After(LocalResults.Start(all), moves).t.done, o);
      |mine| == 1 && k in mine[0] && (mine[0][k] <==> LocalOutcomes.Delivered(LocalResults.StepsOf(moves), o, k))
  {
    LocalResults.OperationsCompleteOnce(all, moves);
    var t := LocalResults.After(LocalResults.Start(all), moves).t;
    var n :| 0 <= n < |t.done| && t.done[n].op == o;
    OneReportOf(t.done, o, n);
    LocalResults.ResultsFollow(all, moves, n, k);
  }

  /** Each completion of a transfer reports its keys: with success, those that were written. */
  function Endings(keys: set<BlockKey>, written: set<BlockKey>, completions: seq<bool>): seq<Entries> {
    if completions == [] then []
    else
      var last := |completions| - 1;
      Endings(keys, written, completions[..last]) + [map k | k in keys :: completions[last] && k in written]
  }

  /** A pull that has ended, or has been given up on, has reported once, on its keys. */
  lemma PullReportsOnce(keys: set<BlockKey>, written: set<BlockKey>, looks: seq<PullLook>)
    requires var op := RunPull(false, looks).op; op.state.Finished? || op.state.Quarantined?
    ensures var mine := Endings(keys, written, RunPull(false, looks).completions); |mine| == 1 && mine[0].Keys == keys
  {
    PullEndsOnce(false, looks);
    var completions := RunPull(false, looks).completions;
    assert |completions| == 1 && completions[..0] == [];
  }

  /** What each backend of a delivery has done by the time it is over. */
  datatype Story = Story(
    all: set<Slot>, moves: seq<LocalResults.LocalRuns.Move>, op: LocalOps.OpId,
    rejected: set<BlockKey>, oneType: bool, copy: seq<Look>,
    pull: seq<PullLook>, written: set<BlockKey>)

  ghost predicate LocalIsOver(s: Story, keys: set<BlockKey>) {
    && LocalResults.CanRun(LocalResults.Start(s.all), s.moves)
    && var t := LocalResults.After(LocalResults.Start(s.all), s.moves).t;
      && s.op in t.ops && t.ops[s.op].kind == LocalOps.Deliver && t.ops[s.op].keys == keys
      && s.op !in t.pending && s.op !in t.leaving
  }

  /** The disk's transfer has ended, or has been given up on. */
  ghost predicate DiskIsOver(s: Story) { RunCopy(s.copy).done || RunCopy(s.copy).copy.uncertain }

  ghost predicate RemoteIsOver(s: Story) {
    var op := RunPull(false, s.pull).op;
    op.state.Finished? || op.state.Quarantined?
  }

  ghost predicate IsOver(s: Story, route: map<BlockKey, Route>) {
    && (KeysOf(route, Local) != {} ==> LocalIsOver(s, KeysOf(route, Local)))
    && s.rejected <= KeysOf(route, Disk) && (s.oneType && s.rejected != KeysOf(route, Disk) ==> DiskIsOver(s))
    && (KeysOf(route, Remote) != {} ==> RemoteIsOver(s))
  }

  /** Only a transfer that was started has an outcome. */
  ghost function DiskAnswers(s: Story): DiskAnswer {
    var completions := RunCopy(s.copy).completions;
    DiskAnswer(s.rejected, s.oneType, completions != [] && completions[0])
  }

  /** A started transfer that is over has completed once, and so reports once on what it moved. */
  lemma DiskCopyCompletesOnce(s: Story)
    requires DiskIsOver(s)
    ensures RunCopy(s.copy).completions == [DiskAnswers(s).ok]
  {
    CopyEndsOnce(s.copy);
  }

  /** What the disk has reported: the rejected keys, then all of them if the transfer could not
      be started, or else whatever the transfer completed. */
  ghost function DiskTold(s: Story, keys: set<BlockKey>): seq<Entries> {
    var first := if s.rejected == {} then [] else [All(s.rejected, false)];
    if keys <= s.rejected then first
    else if !s.oneType then first + [All(keys, false)]
    else first + Endings(keys - s.rejected, keys, RunCopy(s.copy).completions)
  }

  lemma DiskSucceedsIff(s: Story)
    ensures DiskAnswers(s).ok <==> CopySucceeds(s.copy)
  {
    CopySucceedsIff(s.copy);
    CopyEndsOnce(s.copy);
  }

  /** What the disk tells is what was rejected and how the transfer ended: it is a success exactly if
      the transfer was submitted in time and was first seen to end with success, with no poll late. */
  lemma DiskTellsAll(s: Story, keys: set<BlockKey>)
    requires s.oneType && !(keys <= s.rejected) ==> DiskIsOver(s)
    ensures DiskTold(s, keys) == DiskReports(keys, DiskAnswers(s))
    ensures DiskAnswers(s).ok <==> CopySucceeds(s.copy)
  {
    DiskSucceedsIff(s);
    if s.oneType && !(keys <= s.rejected) {
      DiskCopyCompletesOnce(s);
      var completions := RunCopy(s.copy).completions;
      assert completions[..0] == [];
      var moved := keys - s.rejected;
      assert (map k | k in moved :: completions[0] && k in keys) == All(moved, completions[0]);
      assert Endings(moved, keys, completions) == Endings(moved, keys, []) + [All(moved, completions[0])];
    }
  }

  /** The reports that have reached the completion table, each from its backend. */
  ghost predicate Told(s: Story, route: map<BlockKey, Route>, parts: seq<Entries>, from: seq<Route>)
    requires IsOver(s, route)
  {
    && |from| == |parts|
    && Only(parts, from, Local) == (if KeysOf(route, Local) == {} then []
                                    else ReportsOf(LocalResults.After(LocalResults.Start(s.all), s.moves).t.done, s.op))
    && Only(parts, from, Disk) == (if KeysOf(route, Disk) == {} then [] else DiskTold(s, KeysOf(route, Disk)))
    && Only(parts, from, Remote) == (if KeysOf(route, Remote) == {} then []
                                     else Endings(KeysOf(route, Remote), s.written, RunPull(false, s.pull).completions))
  }

  /** What a delivery comes to for one of its keys. From local DRAM: a copy that carried the key came back
      with success. From disk: the key was not rejected, all destinations are of one type, and
      the transfer succeeded in time. From another process: the pull succeeded and the key is
      among those written. */
  ghost predicate Arrived(s: Story, route: map<BlockKey, Route>, k: BlockKey)
    requires k in route
  {
    match route[k]
    case Local => LocalOutcomes.Delivered(LocalResults.StepsOf(s.moves), s.op, k)
    case Disk => k !in s.rejected && s.oneType && CopySucceeds(s.copy)
    case Remote => k in s.written && PullSucceeds(false, s.pull)
  }

  lemma LastSays(parts: seq<Entries>, k: BlockKey)
    requires parts != []
    ensures var last := parts[|parts| - 1];
      k in last ==> k in Merge(parts) && Merge(parts)[k] == last[k]
    ensures k !in parts[|parts| - 1] ==>
      && (k in Merge(parts) <==> k in Merge(parts[..|parts| - 1]))
      && (k in Merge(parts) ==> Merge(parts)[k] == Merge(parts[..|parts| - 1])[k])
  {
  }

  lemma OnePart(e: Entries)
    ensures Merge([e]) == e
  {
    assert [e][..0] == [];
    var none: Entries := map[];
    assert none + e == e && Merge([e]) == Merge([]) + e;
  }

  lemma OneEnding(keys: set<BlockKey>, written: set<BlockKey>, ok: bool)
    ensures Endings(keys, written, [ok]) == [map k | k in keys :: ok && k in written]
  {
    assert [ok][..0] == [] && Endings(keys, written, []) == [];
  }

  lemma RemoteArrives(s: Story, route: map<BlockKey, Route>, k: BlockKey)
    requires RemoteIsOver(s) && k in route && route[k] == Remote
    ensures var mine := Endings(KeysOf(route, Remote), s.written, RunPull(false, s.pull).completions);
      k in Merge(mine) && (Merge(mine)[k] <==> Arrived(s, route, k))
  {
    assert k in KeysOf(route, Remote);
    PullCompletesWith(false, s.pull);
    var ok := RunPull(false, s.pull).completions[0];
    assert RunPull(false, s.pull).completions == [ok];
    OneEnding(KeysOf(route, Remote), s.written, ok);
    OnePart(map x | x in KeysOf(route, Remote) :: ok && x in s.written);
  }

  lemma DiskArrives(s: Story, route: map<BlockKey, Route>, k: BlockKey)
    requires IsOver(s, route) && k in route && route[k] == Disk
    ensures var mine := DiskReports(KeysOf(route, Disk), DiskAnswers(s));
      k in Merge(mine) && (Merge(mine)[k] <==> Arrived(s, route, k))
  {
    var keys := KeysOf(route, Disk);
    assert k in keys;
    DiskTellsAll(s, keys);
    var mine := DiskReports(keys, DiskAnswers(s));
    LastSays(mine, k);
    if |mine| == 2 {
      assert mine[..1] == [mine[0]];
      OnePart(mine[0]);
    }
  }

  /** Once its backends are done with it, a delivery has completed exactly once, on its keys, with success
      for exactly those that arrived. */
  lemma DeliveryEndsOnce(d: Desk, h: Handle, route: map<BlockKey, Route>, s: Story, parts: seq<Entries>,
                         from: seq<Route>)
    requires h !in d.joined && route != map[] && IsOver(s, route) && Told(s, route, parts, from)
    ensures ReportAll(Opened(d, h, route, DiskAnswers(s)), h, parts) == Desk(d.joined, d.queue + [(h, Merge(parts))])
    ensures Merge(parts).Keys == route.Keys
    ensures forall k :: k in route ==> (Merge(parts)[k] <==> Arrived(s, route, k))
  {
    if KeysOf(route, Local) != {} {
      LocalReportsOnce(s.all, s.moves, s.op);
    }
    if KeysOf(route, Remote) != {} {
      PullReportsOnce(KeysOf(route, Remote), s.written, s.pull);
    }
    DiskTellsAll(s, KeysOf(route, Disk));
    DeliveryCompletesOnce(d, h, route, DiskAnswers(s), parts, from);
    forall k | k in route ensures Merge(parts)[k] <==> Arrived(s, route, k) {
      assert SaidLast(parts, from, route[k], k);
      EachArrives(s, route, parts, from, k);
    }
  }

  lemma EachArrives(s: Story, route: map<BlockKey, Route>, parts: seq<Entries>, from: seq<Route>, k: BlockKey)
    requires IsOver(s, route) && Told(s, route, parts, from) && k in route
    ensures var mine := Merge(Only(parts, from, route[k])); k in mine && (mine[k] <==> Arrived(s, route, k))
  {
    match route[k]
    case Local =>
      assert k in KeysOf(route, Local);
      LocalReportFollows(s.all, s.moves, s.op, k);
      OnePart(ReportsOf(LocalResults.After(LocalResults.Start(s.all), s.moves).t.done, s.op)[0]);
    case Disk =>
      assert k in KeysOf(route, Disk);
      DiskTellsAll(s, KeysOf(route, Disk));
      DiskArrives(s, route, k);
    case Remote =>
      assert k in KeysOf(route, Remote);
      RemoteArrives(s, route, k);
  }
}
