/**
 Framework pins. A pin keeps framework memory in place for some keys; blocks carry the
 descriptors it came with, acquisitions and source writes hold pins, and a pin is offered back
 to the framework once nobody holds it, again and again until the framework accepts.
 */
module FrameworkPins {
  import opened Prelude

  type Pin = string
  type Op = nat

  /** A piece of framework memory, under the pin that keeps it in place. */
  datatype Ref = Ref(pin: Pin, key: BlockKey, index: nat)

  datatype FwMem = FwMem(pin: Pin, refs: seq<Ref>)

  /** A source operation that is still acquiring: the keys it wants, and the pins it holds. */
  datatype Acquisition = Acquisition(keys: set<BlockKey>, pins: set<Pin>)

  /** A native write in flight: the pins held for it, and the memory it was given to read. */
  datatype Write = Write(pins: set<Pin>, sources: set<Ref>)

  datatype Pins = Pins(
    keys: map<Pin, set<BlockKey>>,
    releasing: set<Pin>,
    block: map<BlockKey, FwMem>,
    ops: map<Op, Acquisition>,
    writes: map<Op, Write>,
    // How often each pin was installed, offered, and taken back.
    installed: multiset<Pin>,
    offered: multiset<Pin>,
    accepted: multiset<Pin>)

  /** `Select` is what a submission finds out about its keys: those it drops for their layout,
      those that local DRAM serves, and for each key it can write now which pieces. */
  datatype Select = Select(dropped: set<BlockKey>, local: set<BlockKey>, chosen: map<BlockKey, seq<nat>>)

  datatype Step =
    | Install(pin: Pin, refs: map<BlockKey, seq<Ref>>)
    | Discard(pin: Pin, covered: set<BlockKey>)
    | StartOp(op: Op, keys: set<BlockKey>)
    | HoldPin(op: Op, pin: Pin)
    | HoldBlocks(op: Op, covered: set<BlockKey>)
    | Resolve(op: Op)
    | WaitFor(op: Op, found: Select)
    | Submit(op: Op, found: Select)
    | Return(op: Op)
    | Drop(op: Op)
    | Offer(pin: Pin, ok: bool)

  predicate IsHeld(s: Pins, p: Pin) {
    (exists op :: op in s.ops && p in s.ops[op].pins) || (exists op :: op in s.writes && p in s.writes[op].pins)
  }

  /** The pins under which some keys can be read. */
  function Relevant(s: Pins, covered: set<BlockKey>): set<Pin> {
    set k | k in covered && k in s.block :: s.block[k].pin
  }

  /** A key is written from local DRAM, or from the framework's memory at the chosen places. */
  predicate CanSelect(s: Pins, op: Op, found: Select) {
    && op in s.ops && found.chosen.Keys <= s.ops[op].keys - found.dropped
    && (forall k :: k in found.chosen && k !in found.local ==>
        k in s.block && forall i :: i in found.chosen[k] ==> i < |s.block[k].refs|)
  }

  predicate Enabled(s: Pins, step: Step) {
    match step
    case Install(pin, refs) => forall k :: k in refs ==> forall r :: r in refs[k] ==> r.pin == pin
    case Discard(pin, covered) => true
    case StartOp(op, keys) => op !in s.ops && op !in s.writes
    case HoldPin(op, pin) => op in s.ops && pin in s.keys
    case HoldBlocks(op, covered) => op in s.ops
    case Resolve(op) => op in s.ops
    case WaitFor(op, found) => CanSelect(s, op, found)
    case Submit(op, found) => CanSelect(s, op, found) && op !in s.writes
    case Return(op) => op in s.writes
    case Drop(op) => op in s.ops
    case Offer(pin, ok) => true
  }

  function KeysOf(s: Pins, pin: Pin): set<BlockKey> { if pin in s.keys then s.keys[pin] else {} }

  function Counted(s: Pins, pin: Pin): multiset<Pin> {
    if pin in s.keys then s.installed else s.installed + multiset{pin}
  }

  /** A result installs its pin for the covered keys that have none yet. */
  function ApplyInstall(s: Pins, pin: Pin, refs: map<BlockKey, seq<Ref>>): Pins {
    var unpinned := set k | k in refs && k !in s.block;
    s.(keys := s.keys[pin := KeysOf(s, pin) + unpinned],
       block := s.block + (map k | k in unpinned :: FwMem(pin, refs[k])),
       installed := Counted(s, pin))
  }

  function ApplyDiscard(s: Pins, pin: Pin, covered: set<BlockKey>): Pins {
    s.(keys := s.keys[pin := KeysOf(s, pin) + covered], installed := Counted(s, pin))
  }

  /** The descriptors gathered for the keys that are written now. */
  function Gathered(s: Pins, op: Op, found: Select): set<Ref>
    requires CanSelect(s, op, found)
  {
    set k, i | k in found.chosen && k !in found.local && i in found.chosen[k] :: s.block[k].refs[i]
  }

  /** The pins of what is retained, whoever acquired them: everything while some key is still
      waiting for pieces, and otherwise the keys that are written. */
  function Retained(s: Pins, op: Op, found: Select, waiting: bool): set<Pin>
    requires op in s.ops
  {
    Relevant(s, (if waiting then s.ops[op].keys - found.dropped else found.chosen.Keys) - found.local)
  }

  function ApplyWait(s: Pins, op: Op, found: Select): Pins
    requires op in s.ops
  {
    s.(ops := s.ops[op := Acquisition(s.ops[op].keys - found.dropped, Retained(s, op, found, true))])
  }

  function ApplySubmit(s: Pins, op: Op, found: Select): Pins
    requires CanSelect(s, op, found)
  {
    s.(ops := s.ops - {op}, writes := s.writes[op := Write(Retained(s, op, found, false), Gathered(s, op, found))])
  }

  /** One pin's turn in the release loop. */
  function ApplyOffer(s: Pins, p: Pin, ok: bool): Pins {
    if IsHeld(s, p) || p !in s.keys then s
    else
      var started := s.(releasing := s.releasing + {p}, offered := s.offered + multiset{p},
                        block := map k | k in s.block && !(k in s.keys[p] && s.block[k].pin == p) :: s.block[k]);
      if !ok then started
      else started.(keys := s.keys - {p}, releasing := started.releasing - {p}, accepted := s.accepted + multiset{p})
  }

  function Apply(s: Pins, step: Step): Pins
    requires Enabled(s, step)
  {
    match step
    case Install(pin, refs) => ApplyInstall(s, pin, refs)
    case Discard(pin, covered) => ApplyDiscard(s, pin, covered)
    case StartOp(op, keys) => s.(ops := s.ops[op := Acquisition(keys, {})])
    case HoldPin(op, pin) => s.(ops := s.ops[op := s.ops[op].(pins := s.ops[op].pins + {pin})])
    case HoldBlocks(op, covered) => s.(ops := s.ops[op := s.ops[op].(pins := s.ops[op].pins + Relevant(s, covered))])
    case Resolve(op) => s.(ops := s.ops[op := s.ops[op].(pins := Relevant(s, s.ops[op].keys))])
    case WaitFor(op, found) => ApplyWait(s, op, found)
    case Submit(op, found) => ApplySubmit(s, op, found)
    case Return(op) => s.(writes := s.writes - {op})
    case Drop(op) => s.(ops := s.ops - {op})
    case Offer(pin, ok) => ApplyOffer(s, pin, ok)
  }

  // -- The invariant.

  /** A block's descriptors are its pin's, and the pin is installed for it. */
  ghost predicate BlockOk(s: Pins, k: BlockKey) {
    k in s.block ==>
      && s.block[k].pin in s.keys && k in s.keys[s.block[k].pin]
      && forall r :: r in s.block[k].refs ==> r.pin == s.block[k].pin
  }

  ghost predicate OpOk(s: Pins, op: Op, p: Pin) {
    && (op in s.ops && p in s.ops[op].pins ==> p in s.keys)
    && (op in s.writes && p in s.writes[op].pins ==> p in s.keys)
  }

  /** A write reads only under pins that are held for it. */
  ghost predicate ReadOk(s: Pins, op: Op, r: Ref) {
    op in s.writes && r in s.writes[op].sources ==> r.pin in s.writes[op].pins
  }

  ghost predicate PinOk(s: Pins, p: Pin) {
    && (p in s.releasing ==> p in s.keys)
    && s.installed[p] == s.accepted[p] + (if p in s.keys then 1 else 0)
    && s.accepted[p] <= s.offered[p]
  }

  ghost predicate Inv(s: Pins) {
    && (forall k :: BlockOk(s, k))
    && (forall op, p :: OpOk(s, op, p))
    && (forall op, r :: ReadOk(s, op, r))
    && (forall p :: PinOk(s, p))
  }

  lemma InstallKeeps(s: Pins, pin: Pin, refs: map<BlockKey, seq<Ref>>)
    requires Inv(s) && Enabled(s, Install(pin, refs))
    ensures Inv(ApplyInstall(s, pin, refs))
  {
    var t := ApplyInstall(s, pin, refs);
    forall k ensures BlockOk(t, k) { assert BlockOk(s, k); }
    forall op, p ensures OpOk(t, op, p) { assert OpOk(s, op, p); }
    forall op, r ensures ReadOk(t, op, r) { assert ReadOk(s, op, r); }
    forall p ensures PinOk(t, p) { assert PinOk(s, p); }
  }

  lemma DiscardKeeps(s: Pins, pin: Pin, covered: set<BlockKey>)
    requires Inv(s)
    ensures Inv(ApplyDiscard(s, pin, covered))
  {
    var t := ApplyDiscard(s, pin, covered);
    forall k ensures BlockOk(t, k) { assert BlockOk(s, k); }
    forall op, p ensures OpOk(t, op, p) { assert OpOk(s, op, p); }
    forall op, r ensures ReadOk(t, op, r) { assert ReadOk(s, op, r); }
    forall p ensures PinOk(t, p) { assert PinOk(s, p); }
  }

  /** What is gathered for a write lies under the pins that are retained for it. */
  lemma GatheredIsRetained(s: Pins, op: Op, found: Select, r: Ref)
    requires Inv(s) && CanSelect(s, op, found) && r in Gathered(s, op, found)
    ensures r.pin in Retained(s, op, found, false)
  {
    var k, i :| k in found.chosen && k !in found.local && i in found.chosen[k] && s.block[k].refs[i] == r;
    assert BlockOk(s, k);
    assert k in found.chosen.Keys - found.local;
  }

  lemma SubmitKeeps(s: Pins, op: Op, found: Select)
    requires Inv(s) && Enabled(s, Submit(op, found))
    ensures Inv(ApplySubmit(s, op, found))
  {
    var t := ApplySubmit(s, op, found);
    forall k ensures BlockOk(t, k) { assert BlockOk(s, k); }
    forall o, p ensures OpOk(t, o, p) {
      assert OpOk(s, o, p);
      RelevantOk(s, found.chosen.Keys - found.local, p);
    }
    forall o, r ensures ReadOk(t, o, r) {
      assert ReadOk(s, o, r);
      if o == op && r in t.writes[op].sources { GatheredIsRetained(s, op, found, r); }
    }
    forall p ensures PinOk(t, p) { assert PinOk(s, p); }
  }

  lemma RelevantOk(s: Pins, covered: set<BlockKey>, p: Pin)
    requires Inv(s)
    ensures p in Relevant(s, covered) ==> p in s.keys
  {
    if p in Relevant(s, covered) {
      var k :| k in covered && k in s.block && s.block[k].pin == p;
      assert BlockOk(s, k);
    }
  }

  lemma OfferKeeps(s: Pins, pin: Pin, ok: bool)
    requires Inv(s)
    ensures Inv(ApplyOffer(s, pin, ok))
  {
    var t := ApplyOffer(s, pin, ok);
    forall k ensures BlockOk(t, k) { assert BlockOk(s, k); }
    forall op, p ensures OpOk(t, op, p) { assert OpOk(s, op, p); }
    forall op, r ensures ReadOk(t, op, r) { assert ReadOk(s, op, r); }
    forall p ensures PinOk(t, p) { assert PinOk(s, p); }
  }

  lemma HoldKeeps(s: Pins, op: Op, a: Acquisition, covered: set<BlockKey>)
    requires Inv(s) && op in s.ops && a.pins <= s.ops[op].pins + Relevant(s, covered)
    ensures Inv(s.(ops := s.ops[op := a]))
  {
    var t := s.(ops := s.ops[op := a]);
    forall k ensures BlockOk(t, k) { assert BlockOk(s, k); }
    forall o, p ensures OpOk(t, o, p) {
      assert OpOk(s, o, p);
      RelevantOk(s, covered, p);
    }
    forall o, r ensures ReadOk(t, o, r) { assert ReadOk(s, o, r); }
    forall p ensures PinOk(t, p) { assert PinOk(s, p); }
  }

  lemma StepKeeps(s: Pins, step: Step)
    requires Inv(s) && Enabled(s, step)
    ensures Inv(Apply(s, step))
  {
    match step
    case Install(pin, refs) => InstallKeeps(s, pin, refs);
    case Discard(pin, covered) => DiscardKeeps(s, pin, covered);
    case Submit(op, found) => SubmitKeeps(s, op, found);
    case Offer(pin, ok) => OfferKeeps(s, pin, ok);
    case HoldBlocks(op, covered) =>
      HoldKeeps(s, op, s.ops[op].(pins := s.ops[op].pins + Relevant(s, covered)), covered);
    case Resolve(op) => HoldKeeps(s, op, s.ops[op].(pins := Relevant(s, s.ops[op].keys)), s.ops[op].keys);
    case WaitFor(op, found) =>
      HoldKeeps(s, op, ApplyWait(s, op, found).ops[op], s.ops[op].keys - found.dropped - found.local);
    case _ =>
      var t := Apply(s, step);
      forall k ensures BlockOk(t, k) { assert BlockOk(s, k); }
      forall o, p ensures OpOk(t, o, p) { assert OpOk(s, o, p); }
      forall o, r ensures ReadOk(t, o, r) { assert ReadOk(s, o, r); }
      forall p ensures PinOk(t, p) { assert PinOk(s, p); }
  }

  ghost predicate CanRun(s: Pins, steps: seq<Step>)
    decreases |steps|
  {
    steps == [] || (Enabled(s, steps[0]) && CanRun(Apply(s, steps[0]), steps[1..]))
  }

  ghost function After(s: Pins, steps: seq<Step>): Pins
    requires CanRun(s, steps)
    decreases |steps|
  {
    if steps == [] then s else After(Apply(s, steps[0]), steps[1..])
  }

  lemma {:induction false} RunKeeps(s: Pins, steps: seq<Step>)
    requires Inv(s) && CanRun(s, steps)
    ensures Inv(After(s, steps))
    decreases |steps|
  {
    if steps != [] {
      StepKeeps(s, steps[0]);
      RunKeeps(Apply(s, steps[0]), steps[1..]);
    }
  }

  const NO_PINS := Pins(map[], {}, map[], map[], map[], multiset{}, multiset{}, multiset{})

  lemma NoPinsInv()
    ensures Inv(NO_PINS)
  {
    var s := NO_PINS;
    forall k ensures BlockOk(s, k) { }
    forall op, p ensures OpOk(s, op, p) { }
    forall op, r ensures ReadOk(s, op, r) { }
    forall p ensures PinOk(s, p) { }
  }

  /** While a write is in flight, no step offers a pin held for it. */
  lemma HeldIsNotOffered(s: Pins, step: Step, op: Op, p: Pin)
    requires Enabled(s, step) && step != Return(op) && op in s.writes && p in s.writes[op].pins
    ensures var t := Apply(s, step); op in t.writes && t.writes[op] == s.writes[op] && t.offered[p] == s.offered[p]
  {
    match step
    case Offer(pin, ok) => assert IsHeld(s, p);
    case _ =>
  }

  lemma {:induction false} LentWhileHeld(s: Pins, steps: seq<Step>, op: Op, p: Pin)
    requires CanRun(s, steps) && Return(op) !in steps && op in s.writes && p in s.writes[op].pins
    ensures var t := After(s, steps); op in t.writes && t.writes[op] == s.writes[op] && t.offered[p] == s.offered[p]
    decreases |steps|
  {
    if steps != [] {
      HeldIsNotOffered(s, steps[0], op, p);
      LentWhileHeld(Apply(s, steps[0]), steps[1..], op, p);
    }
  }

  /** In every run: from the moment a write is handed its descriptors until it returns or is
      given up on, whatever else happens, the pin of every piece of framework memory it reads
      stays installed, and the framework is not once asked to take it back. */
  lemma PinsOutliveTheirReaders(before: seq<Step>, during: seq<Step>, op: Op, r: Ref)
    requires CanRun(NO_PINS, before) && CanRun(After(NO_PINS, before), during) && Return(op) !in during
    requires op in After(NO_PINS, before).writes && r in After(NO_PINS, before).writes[op].sources
    ensures var s, t := After(NO_PINS, before), After(After(NO_PINS, before), during);
      && r.pin in s.keys && r.pin in t.keys
      && t.offered[r.pin] == s.offered[r.pin] && t.accepted[r.pin] == s.accepted[r.pin]
  {
    NoPinsInv();
    RunKeeps(NO_PINS, before);
    var s := After(NO_PINS, before);
    RunKeeps(s, during);
    var t := After(s, during);
    assert ReadOk(s, op, r);
    LentWhileHeld(s, during, op, r.pin);
    assert OpOk(s, op, r.pin) && OpOk(t, op, r.pin);
    AcceptedIsOffered(s, during, r.pin);
  }

  /** The framework accepts only what it is offered. */
  lemma {:induction false} AcceptedIsOffered(s: Pins, steps: seq<Step>, p: Pin)
    requires CanRun(s, steps)
    ensures var t := After(s, steps);
      s.accepted[p] <= t.accepted[p] && t.accepted[p] + s.offered[p] <= t.offered[p] + s.accepted[p]
    decreases |steps|
  {
    if steps != [] {
      AcceptedIsOffered(Apply(s, steps[0]), steps[1..], p);
    }
  }

  /** In every run, every installation of a pin ends in one accepted release, or the pin is
      still there. */
  lemma InstalledPinsComeBackOnce(steps: seq<Step>, p: Pin)
    requires CanRun(NO_PINS, steps)
    ensures var s := After(NO_PINS, steps);
      s.installed[p] == s.accepted[p] + (if p in s.keys then 1 else 0) && s.accepted[p] <= s.offered[p]
  {
    NoPinsInv();
    RunKeeps(NO_PINS, steps);
    assert PinOk(After(NO_PINS, steps), p);
  }

  // -- Blocks and pins on their way out.

  ghost predicate Unreferenced(s: Pins) { forall k :: k in s.block ==> s.block[k].pin !in s.releasing }

  /** The framework hands a pin out anew, for a key that has none, before it has accepted its release. */
  ghost predicate Reuses(s: Pins, step: Step) {
    step.Install? && step.pin in s.releasing && exists k :: k in step.refs && k !in s.block
  }

  ghost predicate NeverReuses(s: Pins, steps: seq<Step>)
    requires CanRun(s, steps)
    decreases |steps|
  {
    steps == [] || (!Reuses(s, steps[0]) && NeverReuses(Apply(s, steps[0]), steps[1..]))
  }

  ghost predicate AlwaysUnreferenced(s: Pins, steps: seq<Step>)
    requires CanRun(s, steps)
    decreases |steps|
  {
    Unreferenced(s) && (steps == [] || AlwaysUnreferenced(Apply(s, steps[0]), steps[1..]))
  }

  lemma InstallRefers(s: Pins, pin: Pin, refs: map<BlockKey, seq<Ref>>)
    requires Unreferenced(s)
    ensures Unreferenced(ApplyInstall(s, pin, refs)) <==> !Reuses(s, Install(pin, refs))
  {
    var t := ApplyInstall(s, pin, refs);
    if k :| pin in s.releasing && k in refs && k !in s.block {
      assert t.block[k].pin == pin;
    }
  }

  lemma UnreferencedStep(s: Pins, step: Step)
    requires Inv(s) && Enabled(s, step) && Unreferenced(s)
    ensures Unreferenced(Apply(s, step)) <==> !Reuses(s, step)
  {
    match step
    case Install(pin, refs) => InstallRefers(s, pin, refs);
    case Offer(pin, ok) =>
      var t := ApplyOffer(s, pin, ok);
      forall k | k in t.block ensures t.block[k].pin !in t.releasing { assert BlockOk(s, k); }
    case _ =>
  }

  /** From any state in which no block refers to a pin whose release has started, this stays so throughout a
      run exactly if the framework never hands such a pin out anew for a key without one. */
  lemma {:induction false} NothingRefersToReleasing(s: Pins, steps: seq<Step>)
    requires Inv(s) && Unreferenced(s) && CanRun(s, steps)
    ensures AlwaysUnreferenced(s, steps) <==> NeverReuses(s, steps)
    decreases |steps|
  {
    if steps != [] {
      StepKeeps(s, steps[0]);
      UnreferencedStep(s, steps[0]);
      if Unreferenced(Apply(s, steps[0])) {
        NothingRefersToReleasing(Apply(s, steps[0]), steps[1..]);
      }
    }
  }

  // -- The memory of a block, and the pins of whoever waits for it.

  /** The step makes a block's memory known, or drops it with its pin. */
  predicate Makes(s: Pins, step: Step, k: BlockKey) { step.Install? && k in step.refs && k !in s.block }

  predicate DropsMemory(s: Pins, step: Step, k: BlockKey) {
    step.Offer? && k in s.block && s.block[k].pin == step.pin && !IsHeld(s, step.pin)
  }

  /** A block's framework memory is the first that was installed for it, until its pin is offered back. */
  lemma MemoryStep(s: Pins, step: Step, k: BlockKey)
    requires Inv(s) && Enabled(s, step)
    ensures var t := Apply(s, step);
      && (k in t.block <==> Makes(s, step, k) || (k in s.block && !DropsMemory(s, step, k)))
      && (Makes(s, step, k) ==> t.block[k] == FwMem(step.pin, step.refs[k]))
      && (k in s.block && k in t.block ==> t.block[k] == s.block[k])
  {
    assert BlockOk(s, k);
  }

  /** A write is given exactly the chosen pieces of the framework memory of the keys that local DRAM does not
      serve, and it keeps them until it returns. */
  lemma WriteStep(s: Pins, step: Step, op: Op, r: Ref)
    requires Enabled(s, step)
    ensures var t := Apply(s, step);
      && (op in t.writes <==> (step.Submit? && step.op == op) || (op in s.writes && step != Return(op)))
      && (step.Submit? && step.op == op ==>
          (r in t.writes[op].sources <==> exists k, i: nat :: IsChosen(s, step.found, k, i, r)))
      && (op in s.writes && op in t.writes ==> t.writes[op] == s.writes[op])
  {
    if step.Submit? && step.op == op && r in Gathered(s, op, step.found) {
      var k, i :| k in step.found.chosen && k !in step.found.local && i in step.found.chosen[k]
        && s.block[k].refs[i] == r;
      assert IsChosen(s, step.found, k, i, r);
    }
  }

  ghost predicate IsChosen(s: Pins, found: Select, k: BlockKey, i: nat, r: Ref) {
    && k in found.chosen && k !in found.local && i in found.chosen[k]
    && k in s.block && i < |s.block[k].refs| && s.block[k].refs[i] == r
  }

  /** An operation keeps the pins it has acquired until it takes stock again, is submitted or is dropped. */
  predicate ChangesPins(step: Step, op: Op) {
    (step.Resolve? || step.WaitFor? || step.Submit? || step.Drop?) && step.op == op
  }

  lemma AcquiredStep(s: Pins, step: Step, op: Op, p: Pin)
    requires Inv(s) && Enabled(s, step) && !ChangesPins(step, op) && op in s.ops && p in s.ops[op].pins
    ensures var t := Apply(s, step); op in t.ops && p in t.ops[op].pins && t.offered[p] == s.offered[p]
  {
    match step
    case Offer(pin, ok) => assert IsHeld(s, p);
    case _ =>
  }

  lemma {:induction false} AcquiredWhileWaiting(s: Pins, steps: seq<Step>, op: Op, p: Pin)
    requires Inv(s) && CanRun(s, steps) && op in s.ops && p in s.ops[op].pins
    requires forall i :: 0 <= i < |steps| ==> !ChangesPins(steps[i], op)
    ensures var t := After(s, steps); op in t.ops && p in t.ops[op].pins && p in t.keys && t.offered[p] == s.offered[p]
    decreases |steps|
  {
    assert OpOk(s, op, p);
    if steps != [] {
      AcquiredStep(s, steps[0], op, p);
      StepKeeps(s, steps[0]);
      AcquiredWhileWaiting(Apply(s, steps[0]), steps[1..], op, p);
    }
  }

  /** In every run: from the moment an operation waits for missing pieces until it looks again, the framework
      memory of every key it still wants from there stays pinned, and the framework is not asked to
      take it back. */
  lemma WaitingKeepsItsPins(before: seq<Step>, op: Op, found: Select, during: seq<Step>, k: BlockKey)
    requires CanRun(NO_PINS, before) && Enabled(After(NO_PINS, before), WaitFor(op, found))
    requires CanRun(Apply(After(NO_PINS, before), WaitFor(op, found)), during)
    requires forall i :: 0 <= i < |during| ==> !ChangesPins(during[i], op)
    requires var s := After(NO_PINS, before); k in s.ops[op].keys - found.dropped - found.local && k in s.block
    ensures var s := After(NO_PINS, before);
      var t := After(Apply(s, WaitFor(op, found)), during);
      s.block[k].pin in t.keys && t.offered[s.block[k].pin] == s.offered[s.block[k].pin]
  {
    NoPinsInv();
    RunKeeps(NO_PINS, before);
    var s := After(NO_PINS, before);
    var t := Apply(s, WaitFor(op, found));
    StepKeeps(s, WaitFor(op, found));
    assert k in (s.ops[op].keys - found.dropped) - found.local;
    assert s.block[k].pin in Retained(s, op, found, true);
    AcquiredWhileWaiting(t, during, op, s.block[k].pin);
  }

  // -- The release loop, in place.

  ghost function OfferAll(s: Pins, pins: seq<Pin>, answers: seq<bool>): Pins
    requires |pins| == |answers|
  {
    if pins == [] then s
    else ApplyOffer(OfferAll(s, pins[..|pins| - 1], answers[..|pins| - 1]), pins[|pins| - 1], answers[|pins| - 1])
  }

  /** Some turn of the pin was answered with yes. */
  ghost predicate Taken(pins: seq<Pin>, answers: seq<bool>, p: Pin)
    requires |pins| == |answers|
  {
    exists i :: 0 <= i < |pins| && pins[i] == p && answers[i]
  }

  /** Nothing about the pin has changed. */
  ghost predicate Untouched(s: Pins, t: Pins, p: Pin) {
    && (p in t.keys <==> p in s.keys) && (p in s.keys ==> t.keys[p] == s.keys[p])
    && (p in t.releasing <==> p in s.releasing)
    && t.offered[p] == s.offered[p] && t.accepted[p] == s.accepted[p]
    && forall k :: k in s.block && s.block[k].pin == p ==> k in t.block && t.block[k] == s.block[k]
  }

  /** The pin is back with the framework if it took it, and else marked; no block refers to it. */
  ghost predicate LetGo(t: Pins, p: Pin, taken: bool) {
    && (p in t.keys <==> !taken) && (p in t.releasing <==> !taken)
    && forall k :: k in t.block ==> t.block[k].pin != p
  }

  ghost predicate Released(s: Pins, t: Pins, pins: seq<Pin>, answers: seq<bool>, p: Pin)
    requires |pins| == |answers|
  {
    if p !in pins || IsHeld(s, p) || p !in s.keys then Untouched(s, t, p) else LetGo(t, p, Taken(pins, answers, p))
  }

  lemma OfferTurn(s: Pins, p: Pin, ok: bool, q: Pin)
    requires Inv(s)
    ensures var t := ApplyOffer(s, p, ok);
      && t.ops == s.ops && t.writes == s.writes
      && (q != p || IsHeld(s, p) || p !in s.keys ==> Untouched(s, t, q))
      && (q == p && !IsHeld(s, p) && p in s.keys ==> LetGo(t, p, ok))
  {
    forall k ensures k in s.block && s.block[k].pin == p ==> p in s.keys && k in s.keys[p] { assert BlockOk(s, k); }
    assert PinOk(s, p);
  }

  lemma TakenLast(pins: seq<Pin>, answers: seq<bool>, p: Pin)
    requires |pins| == |answers| > 0
    ensures var last := |pins| - 1;
      Taken(pins, answers, p) <==> Taken(pins[..last], answers[..last], p) || (pins[last] == p && answers[last])
  {
    var last := |pins| - 1;
    if Taken(pins[..last], answers[..last], p) {
      var i :| 0 <= i < last && pins[..last][i] == p && answers[..last][i];
      assert pins[i] == p && answers[i];
    }
    if Taken(pins, answers, p) {
      var i :| 0 <= i < |pins| && pins[i] == p && answers[i];
      assert i < last ==> pins[..last][i] == p && answers[..last][i];
    }
  }

  lemma {:induction false} OfferAllMeans(s: Pins, pins: seq<Pin>, answers: seq<bool>, p: Pin)
    requires Inv(s) && |pins| == |answers|
    ensures var t := OfferAll(s, pins, answers);
      Inv(t) && t.ops == s.ops && t.writes == s.writes && Released(s, t, pins, answers, p)
  {
    if pins != [] {
      var last := |pins| - 1;
      var before, yes := pins[..last], answers[..last];
      OfferAllMeans(s, before, yes, p);
      var t := OfferAll(s, before, yes);
      OfferKeeps(t, pins[last], answers[last]);
      OfferTurn(t, pins[last], answers[last], p);
      assert pins == before + [pins[last]];
      assert IsHeld(t, p) <==> IsHeld(s, p);
      TakenLast(pins, answers, p);
    }
  }

  class PinTable {
    var s: Pins

    constructor ()
      ensures s == NO_PINS
    {
      s := NO_PINS;
    }

    /** `_release_framework_pins`: each pin gets its turn, and the framework answers as given. A
        held pin is left alone; every other one that is installed goes back to the framework if it
        says yes once, and else is marked to be offered again; no block refers to it then. */
    method Release(pins: seq<Pin>, answers: seq<bool>)
      requires |pins| == |answers| && Inv(s)
      modifies this
      ensures Inv(s) && s.ops == old(s.ops) && s.writes == old(s.writes)
      ensures forall p :: Released(old(s), s, pins, answers, p)
    {
      ghost var start := s;
      for i := 0 to |pins|
        invariant s == OfferAll(start, pins[..i], answers[..i])
      {
        assert pins[..i + 1][..i] == pins[..i] && answers[..i + 1][..i] == answers[..i];
        var p := pins[i];
        if !IsHeld(s, p) && p in s.keys {
          var rest := map k | k in s.block && !(k in s.keys[p] && s.block[k].pin == p) :: s.block[k];
          s := s.(releasing := s.releasing + {p}, offered := s.offered + multiset{p}, block := rest);
          if answers[i] {
            s := s.(keys := s.keys - {p}, releasing := s.releasing - {p}, accepted := s.accepted + multiset{p});
          }
        }
      }
      assert pins[..|pins|] == pins && answers[..|answers|] == answers;
      OfferAllMeans(start, pins, answers, "");
      forall p ensures Released(start, s, pins, answers, p) { OfferAllMeans(start, pins, answers, p); }
    }
  }
}
