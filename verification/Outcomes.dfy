/** What the answer of an operation tells its caller about the session, and what the end of a session
means for its order and its hold.  Both at the step that brings it about, whatever the faults. */
module Outcomes {
  import opened Models
  import opened Inventory
  import Orders
  import opened Cart
  import opened Metrics
  import opened Program
  import opened Slices
  import opened World
  import opened Reach
  import opened Lifecycle
  import opened Guarantees
  import opened Runs

  // ----- Answers ------------------------------------------------------------------------------------

  /** An operation that returns, returns the session it has stored.  One that raises has left the
      session as it was, or has pinned the key because the fate of the order is unknown, or has
      compensated, and then its error tells why.  Only an operation that returns has cached anything. */
  predicate Honest(pc: Pc, x: Session, e: Effect) {
    e.pc.Done? ==>
      var y := SavedOr(x, e);
      match e.pc.outcome
      case Returned(z, _) => z == y
      case Raised(error) =>
        && e.put.None?
        && (|| y == x
            || (error == OrderStatusUnknown && x.state == Held && x.key.None? && y.key.Some? && y == x.(key := y.key))
            || (pc.AtRelease? && pc.release.Compensating? && error == Rethrown(pc.release.cause)
                && x.state == Held && x.key.None? && y == x.(state := Compensated, key := None)))
  }

  lemma EnterHonest(s: Slice, pc: Pc, now: int)
    requires SliceOk(s) && s.at.None? && WantsLock(pc)
    ensures var k := CacheKey(pc);
            var cached := if k.Some? && k.value in s.recs then Some(s.recs[k.value]) else None;
            Honest(pc, s.session, Enter(pc, Some(s.session), cached, now))
  {
    if pc.AtConfirmLock? && pc.key in s.recs {
      hide Repaired;
      RepairIsIdle(s, pc.key, {Held, FulfillPending});
    }
  }

  lemma ResumeHonest(s: Slice, reply: Reply)
    requires SliceOk(s) && s.at.Some? && HoldsLock(s.at.value)
    requires s.at.value.AtFulfill? || s.at.value.AtRelease? ==> s.session.hold.Some?
    requires Answers(CallOf(s.at.value, s.session), reply)
    ensures Honest(s.at.value, s.session, Resume(s.at.value, s.session, reply))
  {
    hide GoodLines, HoldTracked, Cached;
  }

  /** This step ends the operation of task `tid`, under a lock or not. */
  ghost predicate EndsWith(w: World, step: Step, tid: Tid)
    requires Enabled(w, step)
  {
    tid in Take(w, step).tasks && Take(w, step).tasks[tid].pc.Done? && !(tid in w.tasks && w.tasks[tid].pc.Done?)
  }

  /** Where the ended operation was before: nowhere if it ended at its start. */
  function PcBefore(w: World, tid: Tid): Option<Pc> {
    if tid in w.tasks then Some(w.tasks[tid].pc) else None
  }

  /** What an answer means, given the session before and after. */
  predicate Means(pc: Option<Pc>, x: Session, y: Session, outcome: Outcome) {
    match outcome
    case Returned(z, _) => z == y
    case Raised(error) =>
      || y == x
      || (error == OrderStatusUnknown && x.state == Held && x.key.None? && y.key.Some? && y == x.(key := y.key))
      || (x.state == Held && x.key.None? && y == x.(state := Compensated)
          && pc.Some? && pc.value.AtRelease? && pc.value.release.Compensating?
          && error == (if pc.value.release.cause == Timeout then CompensationIncomplete
               else Error.Gateway(pc.value.release.cause)))
  }

  lemma HonestMeans(pc: Pc, x: Session, e: Effect)
    requires Honest(pc, x, e) && e.pc.Done?
    ensures Means(Some(pc), x, SavedOr(x, e), e.pc.outcome)
  {
  }

  lemma LockedEnd(w: World, step: Step, tid: Tid)
    requires Inv(w) && Enabled(w, step) && tid in w.tasks && w.tasks[tid].sid in w.cells
    requires step == GetLock(tid) || (step.Respond? && step.tid == tid && HoldsLock(w.tasks[tid].pc))
    requires tid in Take(w, step).tasks && Take(w, step).tasks[tid].pc.Done?
    ensures var s, w' := w.tasks[tid].sid, Take(w, step);
            && s in w'.cells && w'.tasks[tid].sid == s
            && Means(Some(w.tasks[tid].pc), w.cells[s].session, w'.cells[s].session, w'.tasks[tid].pc.outcome)
  {
    hide Inv, SliceOk, Enter, Resume, Serve, Tally, Honest, Means, RespondStep;
    var s := w.tasks[tid].sid;
    if step.GetLock? {
      LockSliceOk(w, tid);
      EnterHonest(SliceOf(w, s), w.tasks[tid].pc, w.clock);
      HonestMeans(w.tasks[tid].pc, w.cells[s].session, LockEffect(w, tid));
    } else {
      ReplyFields(w, tid, step.fault, step.newId);
      ReplyIdentity(w, tid, step.fault, step.newId);
      ReplyAnswers(w, tid, step.fault, step.newId);
      ResumeHonest(SliceOf(w, s), ServedTo(w, tid, step.fault, step.newId).reply);
      HonestMeans(w.tasks[tid].pc, w.cells[s].session, ReplyEffect(w, tid, step.fault, step.newId));
    }
  }

  // Endings without a lock: at the start, at the look at the hold, or for want of a session.

  lemma StartedEnd(op: Op, catalog: Catalog, session: Option<Session>, cached: Option<Record>)
    requires session.Some? && cached.Some? && op.PlaceOrder? ==>
               Repaired(session.value, cached.value, {Created, Held, FulfillPending}) == session
    ensures var e := Start(op, catalog, session, cached);
            e.pc.Done? ==> e.pc.outcome.Raised? || (session.Some? && e.pc.outcome == Returned(session.value, true))
  {
    hide CartLines, Repaired;
  }

  lemma RecordIsIdle(w: World, s: Sid, key: Option<Key>)
    requires Inv(w) && s in w.cells && RecordAt(w, s, key).Some?
    ensures Repaired(w.cells[s].session, RecordAt(w, s, key).value, {Created, Held, FulfillPending})
              == Some(w.cells[s].session)
  {
    hide SliceOk, Repaired;
    RepairIsIdle(SliceOf(w, s), key.value, {Created, Held, FulfillPending});
  }

  lemma StartEnd(w: World, tid: Tid, s: Sid, op: Op, catalog: Catalog)
    requires Inv(w) && tid !in w.tasks && StartStep(w, tid, s, op, catalog).tasks[tid].pc.Done?
    ensures var outcome := StartStep(w, tid, s, op, catalog).tasks[tid].pc.outcome;
            outcome.Raised? || (s in w.cells && outcome == Returned(w.cells[s].session, true))
  {
    hide Inv, Start, Repaired;
    if s in w.cells && RecordAt(w, s, OpKey(op)).Some? {
      RecordIsIdle(w, s, OpKey(op));
    }
    StartedEnd(op, catalog, SessionOf(w, s), RecordAt(w, s, OpKey(op)));
  }

  lemma GateEnd(w: World, tid: Tid, fault: Fault, newId: nat)
    requires CanRespond(w, tid, fault, newId) && !HoldsLock(w.tasks[tid].pc)
    ensures var pc := RespondStep(w, tid, fault, newId).tasks[tid].pc; pc.Done? ==> pc.outcome.Raised?
    ensures RespondStep(w, tid, fault, newId).cells == w.cells
  {
    hide Serve, Tally;
  }

  lemma UnlockedEnd(w: World, step: Step, tid: Tid)
    requires Inv(w) && Enabled(w, step) && EndsWith(w, step, tid)
    requires !(tid in w.tasks && w.tasks[tid].sid in w.cells
               && (step == GetLock(tid) || (step.Respond? && HoldsLock(w.tasks[tid].pc))))
    ensures var w' := Take(w, step);
            var s, outcome := w'.tasks[tid].sid, w'.tasks[tid].pc.outcome;
            w'.cells == w.cells && (outcome.Raised? || (s in w.cells && outcome == Returned(w.cells[s].session, true)))
  {
    hide Inv, Start, Enter, Resume, Serve, Tally, RespondStep;
    match step
    case StartOp(_, s, op, catalog) =>
      StartKeeps(w, tid, s, op, catalog);
      StartEnd(w, tid, s, op, catalog);
    case GetLock(_) => UnknownSession(w, tid);
    case Respond(t, fault, newId) =>
      OnlyOwnTask(w, t, fault, newId);
      if HoldsLock(w.tasks[t].pc) {
        LockHeld(w, t);
        assert false;
      } else {
        GateEnd(w, t, fault, newId);
      }
    case _ =>
  }

  lemma OnlyOwnTask(w: World, t: Tid, fault: Fault, newId: nat)
    requires CanRespond(w, t, fault, newId)
    ensures var w' := RespondStep(w, t, fault, newId);
            t in w'.tasks && w'.tasks == w.tasks[t := w'.tasks[t]] && w'.tasks[t].sid == w.tasks[t].sid
  {
    hide Serve, Resume, Tally, Noted, ReleaseFailed;
  }

  lemma LockHeld(w: World, t: Tid)
    requires Inv(w) && t in w.tasks && HoldsLock(w.tasks[t].pc)
    ensures w.tasks[t].sid in w.cells
  {
  }

  /** What an answer means, at the moment it is given: a returned session is the stored one; an operation
      that raises left the session as it was, or pinned its key with the hold kept because the fate of the
      order is unknown, or compensated it, with no order and no hold left, and then the error is an
      incomplete compensation exactly if the cause was a timeout, and otherwise that cause. */
  lemma AnswersAreHonest(w: World, step: Step, tid: Tid)
    requires Reachable(w) && Enabled(w, step) && EndsWith(w, step, tid)
    ensures var w' := Take(w, step);
            var s, outcome := w'.tasks[tid].sid, w'.tasks[tid].pc.outcome;
            if s in w.cells then
              && s in w'.cells && Means(PcBefore(w, tid), w.cells[s].session, w'.cells[s].session, outcome)
              && var x, y := w.cells[s].session, w'.cells[s].session;
                 && (y.state == Compensated && x.state != Compensated ==>
                      OrdersOf(w', s) == [] && HoldOf(w', s) == None)
                 && (y.key != x.key && outcome.Raised? ==>
                      y.state == Held && (w'.cells[s].lost || HoldOf(w', s) == Some(Active)))
            else
              outcome.Raised?
  {
    hide Reachable, Inv, Take, Enabled;
    ReachableOk(w);
    ReachStep(w, step);
    if tid in w.tasks && w.tasks[tid].sid in w.cells
      && (step == GetLock(tid) || (step.Respond? && HoldsLock(w.tasks[tid].pc))) {
      OwnStep(w, step, tid);
      LockedEnd(w, step, tid);
      var s := w.tasks[tid].sid;
      Agreement(Take(w, step), s);
      SliceHolds(Take(w, step), s);
      DoneFreesLock(w, step, tid);
      HoldOfSlice(Take(w, step), s);
      if Take(w, step).cells[s].session.state == Held {
        FreeHeldHold(SliceOf(Take(w, step), s));
      }
    } else {
      UnlockedEnd(w, step, tid);
    }
  }

  lemma OwnStep(w: World, step: Step, tid: Tid)
    requires Inv(w) && Enabled(w, step) && EndsWith(w, step, tid) && tid in w.tasks
               && (step == GetLock(tid) || step.Respond?)
    ensures step.Respond? ==> step.tid == tid
  {
    hide Inv, RespondStep, LockStep;
    if step.Respond? {
      OnlyOwnTask(w, step.tid, step.fault, step.newId);
    }
  }

  lemma HoldOfSlice(w: World, s: Sid)
    requires s in w.cells
    ensures SliceOf(w, s).hold == HoldOf(w, s)
  {
  }

  lemma DoneFreesLock(w: World, step: Step, tid: Tid)
    requires Inv(w) && Enabled(w, step) && tid in w.tasks && w.tasks[tid].sid in w.cells
    requires w.tasks[tid].sid in Take(w, step).cells
    requires step == GetLock(tid) || (step.Respond? && step.tid == tid && HoldsLock(w.tasks[tid].pc))
    requires tid in Take(w, step).tasks && Take(w, step).tasks[tid].pc.Done?
    ensures var s := w.tasks[tid].sid;
            SliceOf(Take(w, step), s).at.None? && SliceOf(Take(w, step), s).session == Take(w, step).cells[s].session
            && SliceOf(Take(w, step), s).lost == Take(w, step).cells[s].lost
  {
    hide Inv, Enter, Resume, Serve, Tally, RespondStep;
    if step.Respond? {
      ReplyFields(w, tid, step.fault, step.newId);
    }
  }

  // ----- Ends of sessions -----------------------------------------------------------------------------

  /** An order is there and its hold is not. */
  ghost predicate Stranded(w: World, s: Sid)
    requires s in w.cells
  {
    OrdersOf(w, s) != [] && HoldOf(w, s) == None
  }

  predicate Sold(state: SessionState) {
    state in {Confirmed, Reconciled}
  }

  lemma EnterEnds(s: Slice, pc: Pc, now: int)
    requires SliceOk(s) && s.at.None? && WantsLock(pc)
    ensures var k := CacheKey(pc);
            var cached := if k.Some? && k.value in s.recs then Some(s.recs[k.value]) else None;
            Sold(SavedOr(s.session, Enter(pc, Some(s.session), cached, now)).state) ==> Sold(s.session.state)
  {
    if pc.AtConfirmLock? && pc.key in s.recs {
      hide Repaired;
      RepairIsIdle(s, pc.key, {Held, FulfillPending});
    }
  }

  lemma ResumeEnds(s: Slice, reply: Reply)
    requires SliceOk(s) && s.at.Some? && HoldsLock(s.at.value)
    requires s.at.value.AtFulfill? || s.at.value.AtRelease? ==> s.session.hold.Some?
    requires Answers(CallOf(s.at.value, s.session), reply)
    ensures var y := SavedOr(s.session, Resume(s.at.value, s.session, reply));
            && (Sold(y.state) && !Sold(s.session.state) ==> s.at.value.AtFulfill?)
            && (y.state == Abandoned && s.session.state != Abandoned ==> s.at.value.AtRelease?)
  {
    hide GoodLines, HoldTracked, Cached;
  }

  /** The step that ends a session: getting the lock, or a reply to a fulfil or a release. */
  lemma EndingStep(w: World, step: Step, s: Sid)
    requires Inv(w) && Enabled(w, step) && s in w.cells && s in Take(w, step).cells
    requires var x, y := w.cells[s].session, Take(w, step).cells[s].session;
             (y.state == Abandoned && x.state != Abandoned) || (Sold(y.state) && !Sold(x.state))
    ensures var x, y := w.cells[s].session, Take(w, step).cells[s].session;
            if y.state == Abandoned then
              step.GetLock? || (step.Respond? && HoldsLock(w.tasks[step.tid].pc) && w.tasks[step.tid].pc.AtRelease?
                && w.tasks[step.tid].sid == s)
            else
              step.Respond? && HoldsLock(w.tasks[step.tid].pc) && w.tasks[step.tid].pc.AtFulfill?
                && w.tasks[step.tid].sid == s
  {
    hide Inv, SliceOk, Enter, Resume, Start, Serve, Tally, RespondStep;
    match step
    case StartOp(tid, sid, op, catalog) => StartKeeps(w, tid, sid, op, catalog);
    case GetLock(tid) =>
      if w.tasks[tid].sid == s {
        LockSliceOk(w, tid);
        EnterEnds(SliceOf(w, s), w.tasks[tid].pc, w.clock);
      }
    case Respond(tid, fault, newId) =>
      if !HoldsLock(w.tasks[tid].pc) {
        LocklessCells(w, tid, fault, newId);
      } else {
        ReplyFields(w, tid, fault, newId);
        ReplyIdentity(w, tid, fault, newId);
        if w.tasks[tid].sid == s {
          ReplyAnswers(w, tid, fault, newId);
          ResumeEnds(SliceOf(w, s), ServedTo(w, tid, fault, newId).reply);
        }
      }
    case _ =>
  }

  lemma ReleasesKeepOrders(w: World, step: Step)
    requires Enabled(w, step) && (step.GetLock? || (step.Respond? && w.tasks[step.tid].pc.AtRelease?))
    ensures Take(w, step).ecops == w.ecops
  {
    hide Enter, Resume, Tally, Noted, ReleaseFailed, ServeIhms;
  }

  lemma FulfillingHold(s: Slice)
    requires SliceOk(s) && s.at.Some? && s.at.value.AtFulfill? && s.session.state in {Held, FulfillPending}
    ensures s.hold == None <==> s.lost
  {
  }

  /** Whatever the faults: the step that abandons a session strands an order exactly if the session had
      one just before; and a session has its hold fulfilled after the step that confirms it exactly if the
      hold was still there just before. */
  lemma EndsDecideHold(w: World, step: Step, s: Sid)
    requires Reachable(w) && Enabled(w, step) && s in w.cells
    ensures s in Take(w, step).cells
    ensures var w' := Take(w, step);
            var x, y := w.cells[s].session, w'.cells[s].session;
            && (y.state == Abandoned && x.state != Abandoned ==> (Stranded(w', s) <==> OrdersOf(w, s) != []))
            && (Sold(y.state) && !Sold(x.state) ==>
                  (HoldOf(w', s) == Some(Status.Fulfilled) <==> HoldOf(w, s) != None))
  {
    hide Reachable, Inv, Take, Enabled, Orders.OrdersFor, HoldStatus, SliceOf;
    ReachableOk(w);
    ReachStep(w, step);
    StepEvolves(w, step, s);
    var w' := Take(w, step);
    var x, y := w.cells[s].session, w'.cells[s].session;
    if (y.state == Abandoned && x.state != Abandoned) || (Sold(y.state) && !Sold(x.state)) {
      EndingStep(w, step, s);
      Agreement(w', s);
      if y.state == Abandoned {
        ReleasesKeepOrders(w, step);
      } else {
        FulfillingStep(w, step, s);
      }
    }
  }

  lemma FulfillingStep(w: World, step: Step, s: Sid)
    requires Inv(w) && Enabled(w, step) && s in w.cells && s in Take(w, step).cells
    requires step.Respond? && HoldsLock(w.tasks[step.tid].pc) && w.tasks[step.tid].pc.AtFulfill?
    requires w.tasks[step.tid].sid == s
    requires w.cells[s].session.state in {Held, FulfillPending}
    ensures HoldOf(w, s) == None <==> Take(w, step).cells[s].lost
  {
    hide Inv, SliceOk, RespondStep;
    HolderIsCurrent(w, step.tid);
    ReplyMarks(w, step.tid, step.fault, step.newId, s);
    FulfillingHold(SliceOf(w, s));
    HoldOfSlice(w, s);
  }
}
