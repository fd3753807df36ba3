/** Runs can be extended, and what steps without faults keep along the way. */
module Runs {
  import opened Models
  import opened Gateways
  import opened Retries
  import opened Metrics
  import opened Program
  import opened World
  import opened Reach
  import opened Lifecycle
  import opened Guarantees

  lemma ReachStep(w: World, step: Step)
    requires Reachable(w) && Enabled(w, step)
    ensures Reachable(Take(w, step))
  {
    hide Enabled, Take, Init;
    var ws :| IsRun(ws) && ws[|ws| - 1] == w;
    var longer := ws + [Take(w, step)];
    assert Next(w, Take(w, step));
    forall i | 0 <= i < |longer| - 1 ensures Next(longer[i], longer[i + 1]) {
      if i < |ws| - 1 {
        assert Next(ws[i], ws[i + 1]);
      }
    }
    assert IsRun(longer);
  }

  lemma ReachReply(w: World, tid: Tid, fault: Fault, newId: nat)
    requires Reachable(w) && CanRespond(w, tid, fault, newId)
    ensures Reachable(RespondStep(w, tid, fault, newId))
  {
    hide Reachable, RespondStep, CanRespond;
    assert Enabled(w, Respond(tid, fault, newId));
    ReachStep(w, Respond(tid, fault, newId));
  }

  /** A lookup in some locked section of a session found this order. */
  ghost predicate FoundIn(sections: seq<Section>, o: Order) {
    exists k: nat, i: nat :: k < |sections| && i < |sections[k].trace| && sections[k].trace[i].reply == Found(Some(o))
  }

  ghost predicate KeepsFound(c: Cell, c': Cell) {
    forall o :: FoundIn(c.sections, o) ==> FoundIn(c'.sections, o)
  }

  lemma AddedKeepsFound(sections: seq<Section>, x: Section, o: Order)
    requires FoundIn(sections, o)
    ensures FoundIn(sections + [x], o)
  {
    var k: nat, i: nat :| k < |sections| && i < |sections[k].trace| && sections[k].trace[i].reply == Found(Some(o));
    assert (sections + [x])[k].trace[i].reply == Found(Some(o));
  }

  lemma NotedKeepsFound(sections: seq<Section>, y: Exchange, o: Order)
    requires sections != []
    ensures FoundIn(sections, o) || y.reply == Found(Some(o)) ==> FoundIn(Noted(sections, y), o)
  {
    var n := |sections| - 1;
    var more := Noted(sections, y);
    if y.reply == Found(Some(o)) {
      assert more[n].trace[|sections[n].trace|].reply == Found(Some(o));
    } else if FoundIn(sections, o) {
      var k: nat, i: nat :| k < |sections| && i < |sections[k].trace| && sections[k].trace[i].reply == Found(Some(o));
      assert more[k].trace[i].reply == Found(Some(o));
    }
  }

  /** What steps without faults keep: reachability, orders, and the marks of unacknowledged releases. */
  ghost predicate Follows(w: World, w': World, s: Sid)
    requires s in w.cells
  {
    && Reachable(w') && s in w'.cells
    && w.ecops.orders <= w'.ecops.orders && w'.cells[s].session.ref == w.cells[s].session.ref
    && w'.cells[s].lost == w.cells[s].lost && w'.cells[s].unclean == w.cells[s].unclean
    && KeepsFound(w.cells[s], w'.cells[s])
  }

  lemma StepFollows(w: World, step: Step, s: Sid)
    requires Reachable(w) && Enabled(w, step) && s in w.cells && (step.Respond? ==> step.fault == Fine)
    ensures Follows(w, Take(w, step), s)
  {
    hide Reachable, Inv;
    ReachableOk(w);
    ReachStep(w, step);
    StepEvolves(w, step, s);
    assert Next(w, Take(w, step));
    OrdersOnlyGrow(w, Take(w, step));
    StepMarks(w, step, s);
  }

  lemma StepMarks(w: World, step: Step, s: Sid)
    requires Inv(w) && Enabled(w, step) && s in w.cells && s in Take(w, step).cells
    ensures w.cells[s].lost ==> Take(w, step).cells[s].lost
    ensures (step.Respond? ==> step.fault == Fine || !w.tasks[step.tid].pc.AtRelease?) ==>
              Take(w, step).cells[s].unclean == w.cells[s].unclean && Take(w, step).cells[s].lost == w.cells[s].lost
    ensures KeepsFound(w.cells[s], Take(w, step).cells[s])
  {
    hide Inv, Start, Enter, Tally, RespondStep, FoundIn;
    match step
    case StartOp(tid, sid, op, catalog) => StartKeeps(w, tid, sid, op, catalog);
    case GetLock(tid) =>
      forall o | FoundIn(w.cells[s].sections, o) ensures FoundIn(Take(w, step).cells[s].sections, o) {
        AddedKeepsFound(w.cells[s].sections, Section(tid, w.tasks[tid].pc, w.clock, []), o);
      }
    case Respond(tid, fault, newId) =>
      if HoldsLock(w.tasks[tid].pc) {
        ReplyMarks(w, tid, fault, newId, s);
      } else {
        LocklessCells(w, tid, fault, newId);
      }
    case _ =>
  }

  lemma ReplyMarks(w: World, tid: Tid, fault: Fault, newId: nat, s: Sid)
    requires CanRespond(w, tid, fault, newId) && HoldsLock(w.tasks[tid].pc)
    requires s in w.cells && s in RespondStep(w, tid, fault, newId).cells
    ensures w.cells[s].lost ==> RespondStep(w, tid, fault, newId).cells[s].lost
    ensures fault == Fine || !w.tasks[tid].pc.AtRelease? ==>
              && RespondStep(w, tid, fault, newId).cells[s].unclean == w.cells[s].unclean
              && RespondStep(w, tid, fault, newId).cells[s].lost == w.cells[s].lost
    ensures KeepsFound(w.cells[s], RespondStep(w, tid, fault, newId).cells[s])
  {
    hide Resume, Serve, Tally, Noted, ReleaseFailed, FoundIn;
    var t := w.tasks[tid];
    forall o | FoundIn(w.cells[s].sections, o) && t.sid == s
      ensures FoundIn(RespondStep(w, tid, fault, newId).cells[s].sections, o) {
      NotedKeepsFound(w.cells[s].sections, Exchange(TaskCall(t), Serve(w, TaskCall(t), fault, newId).reply), o);
    }
    if t.pc.AtRelease? && fault == Fine {
      var call := TaskCall(t);
      ServeAnswers(w, call, fault, newId);
      FineHold(w, call, newId);
      assert !ReleaseFailed(t.pc, Serve(w, call, fault, newId).reply) by {
        SettledRelease(t.pc, Serve(w, call, fault, newId).reply);
      }
    }
  }

  lemma SettledRelease(pc: Pc, reply: Reply)
    requires (reply.Failed? || reply.Accepted?) && Settled(reply)
    ensures !ReleaseFailed(pc, reply)
  {
  }

  /** A hold call that is answered without a fault settles the hold, whatever its status. */
  lemma FineHold(w: World, call: Call, newId: nat)
    requires call.ReleaseHold? || call.FulfillHold?
    ensures Settled(Serve(w, call, Fine, newId).reply)
  {
  }
}
