/**
 The objects that hold the protocol's state: a source process's table of writes, keyed by
 target and handle, and a target's pull. Their methods update fields in place and are
 proved against the functions the protocol model runs, one write identity at a time.
 */
module RemoteEndpoint {
  import opened Prelude
  import opened RemoteOps

  type Agent = string
  type WriteId = (Agent, nat)

  datatype ProbeReply = ProbeReply(terminal: bool, dead: Option<Incarnation>)

  /** How often something was reported about a write. */
  function Said(reports: seq<(WriteId, Report)>, id: WriteId, r: Report): nat {
    if reports == [] then 0
    else
      var last := |reports| - 1;
      Said(reports[..last], id, r) + if reports[last] == (id, r) then 1 else 0
  }

  ghost predicate Balanced(reports: seq<(WriteId, Report)>, id: WriteId, open: bool) {
    Said(reports, id, Uncertain) == Said(reports, id, Quiesced) + if open then 1 else 0
  }

  lemma SaidOnce(reports: seq<(WriteId, Report)>, id: WriteId, r: Report, x: WriteId)
    ensures Said(reports + [(id, r)], x, Uncertain)
      == Said(reports, x, Uncertain) + if (id, r) == (x, Uncertain) then 1 else 0
    ensures Said(reports + [(id, r)], x, Quiesced)
      == Said(reports, x, Quiesced) + if (id, r) == (x, Quiesced) then 1 else 0
  {
    assert (reports + [(id, r)])[..|reports|] == reports;
  }

  /** `_DanglingOps`, with the part of `_RemoteFWDram` that owns its table. */
  class SourceTable {
    var incarnation: Incarnation
    var deadIncarnations: set<Incarnation>
    var sourceWrites: map<WriteId, Status>
    /** Writes given up on whose end has not been seen. */
    var abandoned: set<WriteId>
    /** The reports sent to the framework, and the readers handed back to the owner. */
    var reports: seq<(WriteId, Report)>
    var released: seq<(seq<BlockKey>, bool)>

    constructor (incarnation: Incarnation)
      ensures this.incarnation == incarnation && deadIncarnations == {} && sourceWrites == map[] && Valid()
    {
      this.incarnation := incarnation;
      deadIncarnations, abandoned := {}, {};
      sourceWrites := map[];
      reports, released := [], [];
      new;
      forall id ensures Balanced(reports, id, false) { }
    }

    /** Every write reported uncertain is reported quiesced once, or is still abandoned. */
    ghost predicate Valid()
      reads this
    {
      abandoned <= sourceWrites.Keys && forall id :: Balanced(reports, id, id in abandoned)
    }

    function StatusOf(id: WriteId): Option<Status>
      reads this
    {
      if id in sourceWrites then Some(sourceWrites[id]) else None
    }

    ghost predicate OnlyChanged(before: map<WriteId, Status>, id: WriteId)
      reads this
    {
      sourceWrites - {id} == before - {id}
    }

    /** A probe for this process, or for whoever answers, fences the write even if none exists. */
    method HandleProbe(id: WriteId, expected: Option<Incarnation>) returns (reply: ProbeReply)
      requires Valid()
      modifies this`sourceWrites
      ensures Valid()
      ensures
        var r := RemoteOps.HandleProbe(incarnation, old(StatusOf(id)), expected);
        StatusOf(id) == r.status && reply.terminal == r.terminal
      ensures OnlyChanged(old(sourceWrites), id)
      ensures reply.dead == (if expected.Some? && expected.value in deadIncarnations then expected else None)
    {
      var terminal := false;
      if expected.None? || expected == Some(incarnation) {
        var status := if id in sourceWrites then sourceWrites[id] else Status(false, false, NoWrite);
        sourceWrites := sourceWrites[id := status.(cancelRequested := true)];
        terminal := !status.write.Posted?;
      }
      var dead := None;
      if expected.Some? && expected.value in deadIncarnations {
        dead := expected;
      }
      reply := ProbeReply(terminal, dead);
    }

    /** `_handle_start_write` once the peer is set up, or the refusal that replaces it. */
    method HandleStartWrite(id: WriteId, quoted: Option<Incarnation>, stopping: bool, setup: Setup)
      returns (reply: StartReply, acked: bool)
      requires Valid()
      modifies this`sourceWrites
      ensures Valid()
      ensures
        var r := RemoteOps.HandleStartWrite(incarnation, stopping, old(StatusOf(id)), quoted, setup);
        StatusOf(id) == r.status && reply == r.reply && acked == r.acked
      ensures OnlyChanged(old(sourceWrites), id)
      ensures id in old(sourceWrites) ==> sourceWrites == old(sourceWrites)
    {
      if stopping {
        return RefusedBy(false), false;
      }
      match setup {
        case FailedNative => return DoneFailed, false;
        case FailedRefused(retryable) => return RefusedBy(retryable), false;
        case Ready(gotMetadata, stalled) =>
          acked := gotMetadata;
          if id in sourceWrites {
            var status := sourceWrites[id];
            if status.cancelRequested && !status.write.Posted? {
              reply := DoneFailed;
            } else {
              reply := NoReply;
            }
          } else if quoted.Some? && quoted.value != incarnation {
            reply := RefusedBy(true);
          } else if stalled {
            reply := DoneFailed;
          } else {
            sourceWrites := sourceWrites[id := ACCEPTED];
            reply := NoReply;
          }
      }
    }

    /** `poll_source`, once the write has been cancelled for too long: reported, once. */
    method Abandon(id: WriteId)
      requires Valid() && id in sourceWrites
      modifies this`abandoned, this`reports
      ensures Valid() && abandoned == old(abandoned) + {id}
      ensures reports == if id in old(abandoned) then old(reports) else old(reports) + [(id, Uncertain)]
    {
      if id !in abandoned {
        forall x ensures Balanced(reports + [(id, Uncertain)], x, x in abandoned + {id}) {
          assert Balanced(reports, x, x in abandoned);
          SaidOnce(reports, id, Uncertain, x);
        }
        abandoned := abandoned + {id};
        reports := reports + [(id, Uncertain)];
      }
    }

    /** `finish_source`: the entry goes, and with it, once, the readers the write held; an
        abandoned write is reported to be over. Nothing happens for a write that has no entry. */
    method FinishSource(id: WriteId, keys: seq<BlockKey>, local: bool, success: bool)
      requires Valid()
      modifies this`sourceWrites, this`abandoned, this`reports, this`released
      ensures Valid() && StatusOf(id).None? && OnlyChanged(old(sourceWrites), id) && abandoned == old(abandoned) - {id}
      ensures released == if id in old(sourceWrites) && local then old(released) + [(keys, success)] else old(released)
      ensures reports == if id in old(abandoned) then old(reports) + [(id, Quiesced)] else old(reports)
    {
      if id in sourceWrites {
        if local {
          released := released + [(keys, success)];
        }
        if id in abandoned {
          forall x ensures Balanced(reports + [(id, Quiesced)], x, x in abandoned - {id}) {
            assert Balanced(reports, x, x in abandoned);
            SaidOnce(reports, id, Quiesced, x);
          }
          reports := reports + [(id, Quiesced)];
        } else {
          forall x ensures Balanced(reports, x, x in abandoned - {id}) { assert Balanced(reports, x, x in abandoned); }
        }
      }
      sourceWrites, abandoned := sourceWrites - {id}, abandoned - {id};
    }

    /** `close_progress`: a final failure for every write this process never submitted,
        whether it was accepted or only fenced, if there is a route to its target. */
    method CloseProgress(routes: set<Agent>) returns (notices: set<WriteId>)
      ensures forall id :: id in notices <==> id in sourceWrites && !sourceWrites[id].write.Posted? && id.0 in routes
    {
      notices := {};
      var rest := sourceWrites.Keys;
      while rest != {}
        invariant rest <= sourceWrites.Keys
        invariant forall id :: id in notices <==>
          id in sourceWrites && id !in rest && !sourceWrites[id].write.Posted? && id.0 in routes
        decreases |rest|
      {
        var id :| id in rest;
        if !sourceWrites[id].write.Posted? && id.0 in routes {
          notices := notices + {id};
        }
        rest := rest - {id};
      }
    }
  }

  /** `_TargetPullOp`: the fields one poll updates. */
  class TargetPull {
    var state: PullState
    const localFill: bool
    var sourceIncarnation: Option<Incarnation>
    var retried: bool
    var probeSent: bool
    var uncertain: bool
    var success: bool

    constructor (localFill: bool)
      ensures View() == NewPull(localFill)
    {
      this.localFill := localFill;
      state := StartWrite;
      sourceIncarnation := None;
      retried, probeSent, uncertain, success := false, false, false, false;
    }

    function View(): PullOp
      reads this
    {
      PullOp(state, localFill, sourceIncarnation, retried, probeSent, uncertain, success)
    }

    method Poll(event: PullEvent, expired: bool, sent: bool, known: Option<Incarnation>) returns (out: PullOutput)
      requires !state.Finished?
      modifies this
      ensures (View(), out) == Progress(old(View()), event, expired, sent, known)
    {
      var cancelled := event.Native? && event.cancelled;
      if state.WaitingWriteDone? && !retried && event.RetryMetadata? {
        sourceIncarnation, retried, state := Some(event.incarnation), true, StartWrite;
      }
      assert View() == TakeRetry(old(View()), event);
      if state.StartWrite? {
        out := Start(expired, sent, known);
      } else if IsTerminal(event) {
        out := Finish(event, expired);
      } else if state.Quarantined? {
        out := Quarantine(sent);
      } else if expired || (cancelled && state.WaitingWriteDone?) {
        if state.WaitingTerminal? {
          state := Quarantined;
          out := Quarantine(sent);
        } else {
          out := Cancel(sent);
        }
      } else {
        out := QUIET_OUTPUT;
        if state.WaitingTerminal? && !probeSent {
          probeSent := sent;
          out := out.(probe := if sent then Some(sourceIncarnation) else None);
        }
      }
    }

    method Start(expired: bool, sent: bool, known: Option<Incarnation>) returns (out: PullOutput)
      requires state.StartWrite?
      modifies this
      ensures (View(), out) == SendStart(old(View()), expired, sent, known)
    {
      if !retried {
        sourceIncarnation := known;
      }
      if expired || !sent {
        success, state := false, Finished;
        out := QUIET_OUTPUT.(handoffs := [Complete(false)]);
      } else {
        out := QUIET_OUTPUT.(start := Some(sourceIncarnation));
        state := WaitingWriteDone;
      }
    }

    method Finish(event: PullEvent, expired: bool) returns (out: PullOutput)
      requires IsTerminal(event)
      modifies this
      ensures (View(), out) == TakeTerminal(old(View()), event, expired)
    {
      if uncertain {
        out := QUIET_OUTPUT.(reports := [Quiesced], handoffs := [Cleanup]);
      } else {
        success := event.Native? && event.success && !event.cancelled && state.WaitingWriteDone?
                   && (!localFill || !expired) && event.indicesValid;
        out := QUIET_OUTPUT.(handoffs := [Complete(success)]);
      }
      state := Finished;
    }

    method Cancel(sent: bool) returns (out: PullOutput)
      modifies this
      ensures (View(), out) == CancelWrite(old(View()), sent)
    {
      state, probeSent := WaitingTerminal, sent;
      out := QUIET_OUTPUT.(probe := if sent then Some(sourceIncarnation) else None,
                           handoffs := if localFill then [DiscardFill] else []);
    }

    /** `poll_target`. */
    method Quarantine(sent: bool) returns (out: PullOutput)
      modifies this`uncertain
      ensures (View(), out) == PollQuarantined(old(View()), sent)
    {
      out := QUIET_OUTPUT;
      if !uncertain {
        uncertain := true;
        out := out.(probe := if sent then Some(sourceIncarnation) else None,
                    reports := [Uncertain], handoffs := [FailUncertain]);
      }
    }
  }
}
