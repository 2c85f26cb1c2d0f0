/**
 The lazy-deletion eviction queue. The heap keeps stale entries until it is popped or
 compacted, and every open scan holds the entries it has popped until it is closed.
 `heapq` appears by its contract: a bag whose smallest entry can be removed.
 */
module EvictionQueue {
  import opened Prelude

  /** The sequence number is unique, so equal entries are the same entry. */
  datatype Entry = Entry(score: real, sequence: nat, key: BlockKey)

  predicate Less(a: Entry, b: Entry) {
    a.score < b.score || (a.score == b.score && a.sequence < b.sequence)
  }

  predicate IsLive(live: map<BlockKey, Entry>, e: Entry) { e.key in live && live[e.key] == e }

  /** One `candidates` generator: what it excludes, has yielded, and has popped. */
  datatype Scan = Scan(excluded: set<BlockKey>, seen: set<BlockKey>, skipped: multiset<Entry>)

  /** All entries popped by open scans. */
  function Held(scans: seq<Scan>): multiset<Entry> {
    if scans == [] then multiset{} else scans[0].skipped + Held(scans[1..])
  }

  function Holding(scans: seq<Scan>, i: nat, item: Entry): seq<Scan>
    requires i < |scans|
  {
    scans[i := scans[i].(skipped := scans[i].skipped + multiset{item})]
  }

  lemma {:induction false} HeldUpdate(scans: seq<Scan>, i: nat, scan: Scan)
    requires i < |scans|
    ensures scans[i].skipped <= Held(scans)
    ensures Held(scans[i := scan]) == Held(scans) - scans[i].skipped + scan.skipped
  {
    if i == 0 {
      assert scans[i := scan][1..] == scans[1..];
    } else {
      HeldUpdate(scans[1..], i - 1, scan);
      assert scans[i := scan][1..] == scans[1..][i - 1 := scan];
    }
  }

  lemma {:induction false} HeldRemove(scans: seq<Scan>, i: nat)
    requires i < |scans|
    ensures Held(scans) == Held(scans[..i] + scans[i + 1..]) + scans[i].skipped
  {
    var fewer := scans[..i] + scans[i + 1..];
    if i == 0 {
      assert fewer == scans[1..];
    } else {
      HeldRemove(scans[1..], i - 1);
      assert fewer[1..] == scans[1..][..i - 1] + scans[1..][i..];
    }
  }

  lemma {:induction false} HeldAppend(scans: seq<Scan>, scan: Scan)
    ensures Held(scans + [scan]) == Held(scans) + scan.skipped
  {
    if scans == [] {
      assert (scans + [scan])[1..] == [];
    } else {
      HeldAppend(scans[1..], scan);
      assert (scans + [scan])[1..] == scans[1..] + [scan];
    }
  }

  /** `all` gathers the heap and what the open scans hold, `issued` every entry ever made by
      its sequence: each entry is there at most once, and every live one is there. */
  ghost predicate Placed(all: multiset<Entry>, live: map<BlockKey, Entry>, issued: seq<Entry>) {
    && (forall k :: k in live ==> live[k].key == k && live[k] in all)
    && (forall e :: all[e] <= 1)
    && (forall e :: e in all ==> e.sequence < |issued| && issued[e.sequence] == e)
  }

  /** Entries may be dropped as long as no live one is. */
  lemma DropKeeps(all: multiset<Entry>, fewer: multiset<Entry>, live: map<BlockKey, Entry>, issued: seq<Entry>)
    requires Placed(all, live, issued) && fewer <= all
    requires forall e :: e in all && IsLive(live, e) ==> e in fewer
    ensures Placed(fewer, live, issued)
  {
    forall e ensures fewer[e] <= 1 && (e in fewer ==> e in all) { assert fewer[e] <= all[e]; }
  }

  /** A fresh entry takes over its key. */
  lemma AddKeeps(heap: multiset<Entry>, held: multiset<Entry>, live: map<BlockKey, Entry>, issued: seq<Entry>,
                 entry: Entry)
    requires Placed(heap + held, live, issued) && entry.sequence == |issued|
    ensures Placed(heap + multiset{entry} + held, live[entry.key := entry], issued + [entry])
  {
    var all, more := heap + held, heap + multiset{entry} + held;
    assert entry !in all;
    assert forall e :: more[e] == all[e] + (if e == entry then 1 else 0);
    assert forall e :: e in more ==> e == entry || e in all;
  }

  /** An entry that moves from the heap to a scan stays accounted for. */
  lemma MoveKeeps(heap: multiset<Entry>, held: multiset<Entry>, mine: multiset<Entry>, item: Entry)
    requires item in heap && mine <= held
    ensures (heap - multiset{item}) + (held - mine + (mine + multiset{item})) == heap + held
  {
  }

  /** A stale entry may be forgotten. */
  lemma ForgetKeeps(heap: multiset<Entry>, held: multiset<Entry>, live: map<BlockKey, Entry>, issued: seq<Entry>,
                    item: Entry)
    requires Placed(heap + held, live, issued) && item in heap && !IsLive(live, item)
    ensures Placed((heap - multiset{item}) + held, live, issued)
  {
    DropKeeps(heap + held, (heap - multiset{item}) + held, live, issued);
  }

  lemma LeastIsStrict(heap: multiset<Entry>, held: multiset<Entry>, live: map<BlockKey, Entry>, issued: seq<Entry>,
                      item: Entry)
    requires Placed(heap + held, live, issued) && item in heap && forall f :: f in heap ==> !Less(f, item)
    ensures forall f :: f in heap - multiset{item} ==> Less(item, f)
  {
    forall f | f in heap - multiset{item} ensures Less(item, f) {
      assert (heap + held)[item] <= 1 && f in heap + held && item in heap + held;
    }
  }

  /** What compaction keeps of the heap. */
  function Surviving(heap: multiset<Entry>, live: map<BlockKey, Entry>): multiset<Entry> {
    multiset(set e | e in heap && IsLive(live, e))
  }

  lemma CompactionKeeps(heap: multiset<Entry>, held: multiset<Entry>, live: map<BlockKey, Entry>, issued: seq<Entry>)
    requires Placed(heap + held, live, issued)
    ensures Placed(Surviving(heap, live) + held, live, issued)
  {
    var kept := Surviving(heap, live);
    assert kept <= heap;
    DropKeeps(heap + held, kept + held, live, issued);
  }

  /** A scan has dealt with every live entry of `before` that is no longer in the heap. */
  ghost predicate Reached(before: multiset<Entry>, heap: multiset<Entry>, live: map<BlockKey, Entry>, scan: Scan) {
    && heap <= before
    && forall e :: e in before && IsLive(live, e) ==> e in heap || e.key in scan.excluded || e.key in scan.seen
  }

  ghost predicate Others(before: seq<Scan>, after: seq<Scan>, i: nat) {
    && |after| == |before|
    && forall j :: 0 <= j < |after| && j != i ==> after[j] == before[j]
  }

  lemma ReachFurther(before: multiset<Entry>, heap: multiset<Entry>, item: Entry, live: map<BlockKey, Entry>,
                     scan: Scan, later: Scan)
    requires Reached(before, heap, live, scan) && item in heap
    requires later.excluded == scan.excluded && scan.seen <= later.seen
    requires IsLive(live, item) ==> item.key in later.excluded || item.key in later.seen
    ensures Reached(before, heap - multiset{item}, live, later)
  {
  }

  lemma ReachOn(before: multiset<Entry>, heap: multiset<Entry>, fewer: multiset<Entry>, live: map<BlockKey, Entry>,
                scan: Scan, later: Scan)
    requires Reached(before, heap, live, scan) && Reached(heap, fewer, live, later)
    requires later.excluded == scan.excluded && scan.seen <= later.seen
    ensures Reached(before, fewer, live, later)
  {
  }

  /** The key a scan yields: live, new to the scan, and below everything left in the heap. */
  ghost predicate Fresh(key: BlockKey, before: multiset<Entry>, heap: multiset<Entry>, live: map<BlockKey, Entry>,
                        scan: Scan, later: Scan) {
    && later.seen == scan.seen + {key}
    && key in live && key !in scan.excluded && key !in scan.seen
    && live[key] in before
    && (forall f :: f in heap ==>
          live[key].score < f.score || (live[key].score == f.score && live[key].sequence < f.sequence))
  }

  /** Strictly ascending by (score, sequence), so without repetition. */
  ghost predicate InOrder(keys: seq<BlockKey>, live: map<BlockKey, Entry>) {
    forall i, j :: 0 <= i < j < |keys| ==>
      && keys[i] in live && keys[j] in live
      && var a, b := live[keys[i]], live[keys[j]];
         a.score < b.score || (a.score == b.score && a.sequence < b.sequence)
  }

  /** What an undisturbed scan has yielded so far, and that only larger entries are left. */
  ghost predicate Yielded(keys: seq<BlockKey>, before: multiset<Entry>, heap: multiset<Entry>,
                          live: map<BlockKey, Entry>, scan: Scan) {
    && scan.seen == (set k | k in keys)
    && (forall k :: k in keys ==> k in live && k !in scan.excluded && live[k] in before)
    && InOrder(keys, live)
    && (forall k, f :: k in keys && f in heap ==> Less(live[k], f))
    && Reached(before, heap, live, scan)
  }

  lemma YieldMore(keys: seq<BlockKey>, key: BlockKey, before: multiset<Entry>, heap: multiset<Entry>,
                  fewer: multiset<Entry>,
                  live: map<BlockKey, Entry>, scan: Scan, later: Scan)
    requires Yielded(keys, before, heap, live, scan) && Reached(heap, fewer, live, later)
    requires later.excluded == scan.excluded && Fresh(key, heap, fewer, live, scan, later)
    ensures Yielded(keys + [key], before, fewer, live, later)
  {
    forall e | e in heap ensures e in before { assert heap[e] <= before[e]; }
    forall e | e in fewer ensures e in heap { assert fewer[e] <= heap[e]; }
    assert forall k :: k in keys + [key] <==> k in keys || k == key;
  }

  lemma YieldEnd(keys: seq<BlockKey>, before: multiset<Entry>, heap: multiset<Entry>, live: map<BlockKey, Entry>,
                 scan: Scan, later: Scan)
    requires Yielded(keys, before, heap, live, scan) && Reached(heap, multiset{}, live, later)
    requires later.excluded == scan.excluded && later.seen == scan.seen
    ensures Yielded(keys, before, multiset{}, live, later)
  {
  }

  /** A finished scan has yielded exactly the live keys it could reach and does not exclude. */
  lemma ScanTotal(keys: seq<BlockKey>, before: multiset<Entry>, held: multiset<Entry>, live: map<BlockKey, Entry>,
                  issued: seq<Entry>, scan: Scan)
    requires Placed(before + held, live, issued) && Yielded(keys, before, multiset{}, live, scan)
    ensures forall k :: k in keys <==> k in live && k !in scan.excluded && live[k] in before
    ensures held == multiset{} ==> (set k | k in keys) == live.Keys - scan.excluded
  {
    forall k | k in live && k !in scan.excluded && live[k] in before ensures k in keys {
      assert IsLive(live, live[k]);
    }
    if held == multiset{} {
      assert before + held == before;
    }
  }

  /** When a scan ends, the live entries it gives back are those that were in the heap. */
  lemma ScanHolds(before: multiset<Entry>, held: multiset<Entry>, skipped: multiset<Entry>, live: map<BlockKey, Entry>,
                  issued: seq<Entry>)
    requires Placed(before + held, live, issued) && Placed(held + skipped, live, issued)
    ensures forall k :: k in live ==> (live[k] in Surviving(skipped, live) <==> live[k] in before)
  {
    forall k | k in live ensures live[k] in Surviving(skipped, live) <==> live[k] in before {
      assert (before + held)[live[k]] == 1 && (held + skipped)[live[k]] == 1;
    }
  }

  lemma {:induction false} DistinctKeys(entries: set<Entry>)
    requires forall e, f :: e in entries && f in entries && e.key == f.key ==> e == f
    ensures |set e | e in entries :: e.key| == |entries|
  {
    if entries != {} {
      var e :| e in entries;
      DistinctKeys(entries - {e});
      var rest := set f | f in entries - {e} :: f.key;
      assert (set f | f in entries :: f.key) == rest + {e.key};
    }
  }

  /** With nothing held, exactly the live entries survive: one per live key. */
  lemma CompactSize(heap: multiset<Entry>, live: map<BlockKey, Entry>, issued: seq<Entry>)
    requires Placed(heap, live, issued)
    ensures |Surviving(heap, live)| == |live|
  {
    var kept := set e | e in heap && IsLive(live, e);
    DistinctKeys(kept);
    assert (set e | e in kept :: e.key) == live.Keys by {
      forall k | k in live ensures k in (set e | e in kept :: e.key) { assert live[k] in kept; }
    }
    assert |live.Keys| == |live|;
  }

  lemma {:induction false} Least(heap: multiset<Entry>) returns (e: Entry)
    requires heap != multiset{}
    ensures e in heap && forall f :: f in heap ==> !Less(f, e)
    decreases |heap|
  {
    e :| e in heap;
    var rest := heap - multiset{e};
    assert forall f :: f in heap ==> f == e || f in rest;
    if rest != multiset{} {
      var least := Least(rest);
      assert least in heap;
      if !Less(e, least) {
        e := least;
      }
    }
  }

  class EvictionQueue {
    var heap: multiset<Entry>
    var live: map<BlockKey, Entry>
    var nextSequence: nat
    var scans: seq<Scan>
    ghost var issued: seq<Entry>

    ghost predicate Valid()
      reads this
    {
      && |issued| == nextSequence
      && Placed(heap + Held(scans), live, issued)
    }

    constructor ()
      ensures Valid() && live == map[] && scans == []
    {
      heap, live, nextSequence, scans, issued := multiset{}, map[], 0, [], [];
    }

    function Score(key: BlockKey): Option<real>
      reads this
    {
      if key in live then Some(live[key].score) else None
    }

    /** Refresh a score; the answer says whether the key newly became evictable. When no scan
        holds entries, a changing insert leaves the heap at most twice the size of what is
        live. */
    method Insert(key: BlockKey, score: real) returns (added: bool)
      requires Valid()
      modifies this`heap, this`live, this`nextSequence, this`issued
      ensures Valid()
      ensures added <==> key !in old(live)
      ensures old(Score(key)) == Some(score) ==>
        live == old(live) && heap == old(heap) && nextSequence == old(nextSequence)
      ensures old(Score(key)) != Some(score) ==>
        live == old(live)[key := Entry(score, old(nextSequence), key)] && nextSequence == old(nextSequence) + 1
      ensures old(Score(key)) != Some(score) && Held(scans) == multiset{} ==> |heap| <= 2 * |live|
    {
      if key in live && live[key].score == score {
        return false;
      }
      added := key !in live;
      Push(Entry(score, nextSequence, key));
      if |heap| > 2 * |live| {
        Compact();
      }
    }

    method Push(entry: Entry)
      requires Valid() && entry.sequence == nextSequence
      modifies this`heap, this`live, this`nextSequence, this`issued
      ensures Valid() && nextSequence == old(nextSequence) + 1
      ensures live == old(live)[entry.key := entry] && heap == old(heap) + multiset{entry}
    {
      AddKeeps(heap, Held(scans), live, issued, entry);
      nextSequence, issued := nextSequence + 1, issued + [entry];
      live := live[entry.key := entry];
      heap := heap + multiset{entry};
    }

    /** Drop the stale entries of the heap; those that scans hold are left to the scans. */
    method Compact()
      requires Valid()
      modifies this`heap
      ensures Valid() && heap == Surviving(old(heap), live)
      ensures Held(scans) == multiset{} ==> |heap| == |live|
    {
      CompactionKeeps(heap, Held(scans), live, issued);
      if Held(scans) == multiset{} {
        assert heap == heap + Held(scans);
        CompactSize(heap, live, issued);
      }
      heap := Surviving(heap, live);
    }

    method Remove(key: BlockKey) returns (removed: bool)
      requires Valid()
      modifies this`live
      ensures Valid()
      ensures removed <==> key in old(live)
      ensures live == old(live) - {key}
    {
      removed := key in live;
      live := live - {key};
    }

    /** `heapq.heappop`. */
    method PopMin() returns (e: Entry)
      requires heap != multiset{}
      modifies this`heap
      ensures e in old(heap) && heap == old(heap) - multiset{e}
      ensures forall f :: f in old(heap) ==> !Less(f, e)
    {
      ghost var least := Least(heap);
      e :| e in heap && forall f :: f in heap ==> !Less(f, e);
      heap := heap - multiset{e};
    }

    method Open(excluded: set<BlockKey>) returns (scan: nat)
      requires Valid()
      modifies this`scans
      ensures Valid() && scan == |old(scans)| && scans == old(scans) + [Scan(excluded, {}, multiset{})]
      ensures Held(scans) == Held(old(scans))
    {
      scan := |scans|;
      HeldAppend(scans, Scan(excluded, {}, multiset{}));
      scans := scans + [Scan(excluded, {}, multiset{})];
    }

    /** A popped live entry is kept by the scan that popped it. */
    method Hold(scan: nat, item: Entry, ghost full: multiset<Entry>)
      requires |issued| == nextSequence && Placed(full + Held(scans), live, issued)
      requires scan < |scans| && item in full && heap == full - multiset{item}
      modifies this`scans
      ensures Valid()
      ensures scans == Holding(old(scans), scan, item)
    {
      HeldUpdate(scans, scan, scans[scan].(skipped := scans[scan].skipped + multiset{item}));
      MoveKeeps(full, Held(scans), scans[scan].skipped, item);
      scans := Holding(scans, scan, item);
    }

    /** Pop one entry for a scan: a stale one is dropped, a live one is held by the scan. */
    method Take(scan: nat) returns (item: Entry, isLive: bool)
      requires Valid() && scan < |scans| && heap != multiset{}
      modifies this`heap, this`scans
      ensures Valid()
      ensures item in old(heap) && heap == old(heap) - multiset{item}
      ensures forall f :: f in heap ==> Less(item, f)
      ensures isLive <==> IsLive(live, item)
      ensures scans == if isLive then Holding(old(scans), scan, item) else old(scans)
    {
      item := PopMin();
      LeastIsStrict(old(heap), Held(scans), live, issued, item);
      isLive := IsLive(live, item);
      if isLive {
        Hold(scan, item, old(heap));
      } else {
        ForgetKeeps(old(heap), Held(scans), live, issued, item);
      }
    }

    /** Pop one entry for a scan and decide whether to yield its key. */
    method Visit(scan: nat) returns (key: Option<BlockKey>)
      requires Valid() && scan < |scans| && heap != multiset{}
      modifies this`heap, this`scans
      ensures Valid() && Others(old(scans), scans, scan)
      ensures scans[scan].excluded == old(scans[scan].excluded)
      ensures key.None? ==> scans[scan].seen == old(scans[scan].seen)
      ensures key.Some? ==> Fresh(key.value, old(heap), heap, live, old(scans[scan]), scans[scan])
      ensures |heap| < |old(heap)| && Reached(old(heap), heap, live, scans[scan])
    {
      var item, isLive := Take(scan);
      assert Others(old(scans), scans, scan);
      if isLive && item.key !in scans[scan].excluded && item.key !in scans[scan].seen {
        See(scan, item.key);
        ReachFurther(old(heap), old(heap), item, live, old(scans[scan]), scans[scan]);
        return Some(item.key);
      }
      ReachFurther(old(heap), old(heap), item, live, old(scans[scan]), scans[scan]);
      key := None;
    }

    /** Resume a scan: it yields the smallest live entry that it neither excludes nor has
        yielded before, and ends once the heap is empty. */
    method Next(scan: nat) returns (key: Option<BlockKey>)
      requires Valid() && scan < |scans|
      modifies this`heap, this`scans
      ensures Valid() && Others(old(scans), scans, scan)
      ensures scans[scan].excluded == old(scans[scan].excluded)
      ensures key.None? ==> heap == multiset{} && scans[scan].seen == old(scans[scan].seen)
      ensures key.Some? ==>
        Fresh(key.value, old(heap), heap, live, old(scans[scan]), scans[scan]) && |heap| < |old(heap)|
      ensures Reached(old(heap), heap, live, scans[scan])
    {
      key := None;
      while heap != multiset{} && key.None?
        invariant Valid() && Others(old(scans), scans, scan)
        invariant scans[scan].excluded == old(scans[scan].excluded)
        invariant key.None? ==> scans[scan].seen == old(scans[scan].seen)
        invariant key.Some? ==>
          Fresh(key.value, old(heap), heap, live, old(scans[scan]), scans[scan]) && |heap| < |old(heap)|
        invariant |heap| <= |old(heap)| && Reached(old(heap), heap, live, scans[scan])
        decreases |heap|
      {
        ghost var here, before := heap, scans[scan];
        key := Visit(scan);
        ReachOn(old(heap), here, heap, live, before, scans[scan]);
      }
    }

    method See(scan: nat, key: BlockKey)
      requires Valid() && scan < |scans|
      modifies this`scans
      ensures Valid()
      ensures scans == old(scans)[scan := old(scans[scan]).(seen := old(scans[scan].seen) + {key})]
    {
      var s := scans[scan].(seen := scans[scan].seen + {key});
      HeldUpdate(scans, scan, s);
      assert Held(scans[scan := s]) == Held(scans);
      scans := scans[scan := s];
    }

    /** Close a scan: whatever it holds that is still live goes back to the heap. */
    method Close(scan: nat)
      requires Valid() && scan < |scans|
      modifies this`heap, this`scans
      ensures Valid()
      ensures scans == old(scans)[..scan] + old(scans)[scan + 1..]
      ensures heap == old(heap) + Surviving(old(scans[scan].skipped), live)
      ensures scans == [] ==> forall k :: k in live ==> heap[live[k]] == 1
    {
      ghost var all := heap + Held(scans);
      HeldRemove(scans, scan);
      var back := Surviving(scans[scan].skipped, live);
      assert back <= scans[scan].skipped;
      heap := heap + back;
      scans := scans[..scan] + scans[scan + 1..];
      DropKeeps(all, heap + Held(scans), live, issued);
      if scans == [] {
        assert heap + Held(scans) == heap;
      }
    }

    /** Run a fresh scan to its end, with nothing in between. */
    method Exhaust(scan: nat) returns (keys: seq<BlockKey>)
      requires Valid() && scan < |scans| && scans[scan].seen == {}
      modifies this`heap, this`scans
      ensures Valid() && Others(old(scans), scans, scan) && scans[scan].excluded == old(scans[scan].excluded)
      ensures Yielded(keys, old(heap), heap, live, scans[scan]) && heap == multiset{}
    {
      keys := [];
      var next := More(keys, scan, heap);
      while next.Some?
        invariant Valid() && Others(old(scans), scans, scan) && scans[scan].excluded == old(scans[scan].excluded)
        invariant next.None? ==> heap == multiset{} && Yielded(keys, old(heap), heap, live, scans[scan])
        invariant next.Some? ==> Yielded(keys + [next.value], old(heap), heap, live, scans[scan])
        decreases next.Some?, |heap|
      {
        keys := keys + [next.value];
        next := More(keys, scan, old(heap));
      }
    }

    /** One step of an undisturbed scan. */
    method More(keys: seq<BlockKey>, scan: nat, ghost before: multiset<Entry>) returns (key: Option<BlockKey>)
      requires Valid() && scan < |scans| && Yielded(keys, before, heap, live, scans[scan])
      modifies this`heap, this`scans
      ensures Valid() && Others(old(scans), scans, scan) && scans[scan].excluded == old(scans[scan].excluded)
      ensures key.None? ==> heap == multiset{} && Yielded(keys, before, heap, live, scans[scan])
      ensures key.Some? ==> |heap| < |old(heap)| && Yielded(keys + [key.value], before, heap, live, scans[scan])
    {
      key := Next(scan);
      if key.Some? {
        YieldMore(keys, key.value, before, old(heap), heap, live, old(scans[scan]), scans[scan]);
      } else {
        YieldEnd(keys, before, old(heap), live, old(scans[scan]), scans[scan]);
      }
    }

    method OpenAndExhaust(excluded: set<BlockKey>) returns (keys: seq<BlockKey>)
      requires Valid()
      modifies this`heap, this`scans
      ensures Valid() && heap == multiset{} && |scans| == |old(scans)| + 1 && scans[..|old(scans)|] == old(scans)
      ensures InOrder(keys, live)
      ensures forall k :: k in keys <==> k in live && k !in excluded && live[k] in old(heap)
      ensures Held(old(scans)) == multiset{} ==> (set k | k in keys) == live.Keys - excluded
    {
      var scan := Open(excluded);
      keys := Exhaust(scan);
      ScanTotal(keys, old(heap), Held(old(scans)), live, issued, scans[scan]);
    }

    /** A scan nothing interferes with yields exactly the live keys it can reach and does not
        exclude, each once, in strict (score, sequence) order; closing it restores them. */
    method FullScan(excluded: set<BlockKey>) returns (keys: seq<BlockKey>)
      requires Valid()
      modifies this`heap, this`scans
      ensures Valid() && scans == old(scans)
      ensures InOrder(keys, live)
      ensures forall k :: k in keys <==> k in live && k !in excluded && live[k] in old(heap)
      ensures Held(scans) == multiset{} ==> (set k | k in keys) == live.Keys - excluded
      ensures forall k :: k in live ==> (live[k] in heap <==> live[k] in old(heap))
    {
      keys := OpenAndExhaust(excluded);
      CloseLast(old(heap));
    }

    /** Closing the newest scan once it has emptied the heap. */
    method CloseLast(ghost before: multiset<Entry>)
      requires Valid() && scans != [] && heap == multiset{}
      requires Placed(before + Held(scans[..|scans| - 1]), live, issued)
      modifies this`heap, this`scans
      ensures Valid() && scans == old(scans)[..|old(scans)| - 1]
      ensures forall k :: k in live ==> (live[k] in heap <==> live[k] in before)
    {
      var last := |scans| - 1;
      ghost var held, skipped := Held(scans[..last]), scans[last].skipped;
      assert scans == scans[..last] + [scans[last]];
      HeldAppend(scans[..last], scans[last]);
      assert heap + Held(scans) == held + skipped;
      ScanHolds(before, held, skipped, live, issued);
      assert scans[..last] + scans[last + 1..] == scans[..last];
      Close(last);
      assert heap == Surviving(skipped, live);
    }
  }
}
